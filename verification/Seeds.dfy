/** Seed derivation and the work order's byte split (internal/datagen/datagen.go:162-237). */
module Seeds {
  import opened Names

  type Byte = b: int | 0 <= b < 256
  type Part = seq<Byte>

  const OFFSET := 14695981039346656037
  const PRIME := 1099511628211
  const TWO64 := 0x1_0000_0000_0000_0000
  const TWO63 := 0x8000_0000_0000_0000
  /** The inverse of PRIME modulo 2^63. */
  const INVERSE := 5662801919009527163

  type Word = h: int | 0 <= h < TWO64

  /** Exclusive or of two k-bit numbers. */
  function Xor(x: nat, y: nat, k: nat): nat {
    if k == 0 then 0 else 2 * Xor(x / 2, y / 2, k - 1) + if x % 2 == y % 2 then 0 else 1
  }

  function Pow2(k: nat): nat {
    if k == 0 then 1 else 2 * Pow2(k - 1)
  }

  lemma {:induction false} XorFits(x: nat, y: nat, k: nat)
    ensures Xor(x, y, k) < Pow2(k)
  {
    if k > 0 {
      XorFits(x / 2, y / 2, k - 1);
    }
  }

  lemma {:induction false} XorCancels(x: nat, a: nat, y: nat, b: nat, k: nat)
    requires x < Pow2(k) && a < Pow2(k) && y < Pow2(k) && b < Pow2(k) && Xor(x, a, k) == Xor(y, b, k)
    ensures x == y <==> a == b
  {
    if k > 0 {
      var p, q := Xor(x / 2, a / 2, k - 1), Xor(y / 2, b / 2, k - 1);
      assert p == q && (x % 2 == a % 2 <==> y % 2 == b % 2);
      XorCancels(x / 2, a / 2, y / 2, b / 2, k - 1);
    }
  }

  /** Binary digit i of x, from the low end. */
  predicate Bit(x: nat, i: nat) {
    if i == 0 then x % 2 == 1 else Bit(x / 2, i - 1)
  }

  /** A digit of the result is set exactly when the operands differ in it. */
  lemma {:induction false} XorIsBitwise(x: nat, y: nat, k: nat, i: nat)
    requires i < k
    ensures Bit(Xor(x, y, k), i) <==> Bit(x, i) != Bit(y, i)
  {
    if i > 0 {
      XorIsBitwise(x / 2, y / 2, k - 1, i - 1);
    }
  }

  function XorByte(h: Word, b: Byte): (x: Word) {
    XorFits(h % 256, b, 8);
    assert Pow2(8) == 256;
    h / 256 * 256 + Xor(h % 256, b, 8)
  }

  function Step(h: Word, b: Byte): Word {
    XorByte(h, b) * PRIME % TWO64
  }

  function Fnv1a(s: seq<Byte>): Word {
    if s == [] then OFFSET else Step(Fnv1a(s[..|s| - 1]), s[|s| - 1])
  }

  /** The published 64-bit FNV-1a values of the empty text and of "a". */
  lemma Fnv1aVectors()
    ensures Fnv1a([]) == 0xcbf2_9ce4_8422_2325
    ensures Fnv1a([97]) == 0xaf63_dc4c_8601_ec8c
  {
    assert [97][..0] == [];
    OffsetVector();
    ProductVector(XorByte(OFFSET, 97));
  }

  lemma OffsetVector()
    ensures XorByte(OFFSET, 97) == OFFSET + 31
  {
    XorVector();
    assert OFFSET % 256 == 37 && OFFSET / 256 * 256 == OFFSET - 37;
  }

  lemma ProductVector(x: int)
    requires x == OFFSET + 31
    ensures x * PRIME % TWO64 == 0xaf63_dc4c_8601_ec8c
  {
    assert x * PRIME == 875948729822 * TWO64 + 0xaf63_dc4c_8601_ec8c;
  }

  lemma XorVector()
    ensures Xor(37, 97, 8) == 68
  {
    assert Xor(1, 3, 3) == 2;
    assert Xor(4, 12, 5) == 8;
    assert Xor(18, 48, 7) == 34;
  }

  function Encode(parts: seq<Part>): seq<Byte> {
    if parts == [] then [] else parts[0] + [0] + Encode(parts[1..])
  }

  function Mask(h: Word): nat {
    h % TWO63
  }

  function Seed(parts: seq<Part>): nat {
    Mask(Fnv1a(Encode(parts)))
  }

  // ---- One step is a bijection of the low 63 bits ----

  lemma PrimeIsInvertible()
    ensures PRIME * INVERSE == 1 + 675058593899 * TWO63
  {
  }

  lemma TimesPrimeIsInjective(x: nat, y: nat)
    requires x * PRIME % TWO63 == y * PRIME % TWO63
    ensures x % TWO63 == y % TWO63
  {
    PrimeIsInvertible();
    var k := x * PRIME / TWO63 - y * PRIME / TWO63;
    assert (x - y) * PRIME == k * TWO63;
    assert (x - y) * (PRIME * INVERSE) == k * INVERSE * TWO63;
    assert x - y == TWO63 * (k * INVERSE - 675058593899 * (x - y));
    SameRemainder(x, y, k * INVERSE - 675058593899 * (x - y));
  }

  lemma SameRemainder(x: nat, y: nat, d: int)
    requires x - y == TWO63 * d
    ensures x % TWO63 == y % TWO63
  {
  }

  /** The mask keeps the low byte, and the bits above it do not depend on it. */
  lemma LowByte(h: Word, low: nat)
    requires low < 256
    ensures Mask(h / 256 * 256 + low) == Mask(h) / 256 * 256 + low && Mask(h) % 256 == h % 256
  {
  }

  lemma MaskOfXor(h: Word, b: Byte)
    ensures Xor(Mask(h) % 256, b, 8) < 256
    ensures Mask(XorByte(h, b)) == Mask(h) / 256 * 256 + Xor(Mask(h) % 256, b, 8)
  {
    XorFits(h % 256, b, 8);
    assert Pow2(8) == 256;
    LowByte(h, Xor(h % 256, b, 8));
  }

  lemma SplitIsUnique(p: nat, x: nat, q: nat, y: nat)
    requires x < 256 && y < 256 && p * 256 + x == q * 256 + y
    ensures p == q && x == y
  {
  }

  lemma XorLow(m: nat, a: Byte, n: nat, b: Byte)
    requires m / 256 == n / 256 && Xor(m % 256, a, 8) == Xor(n % 256, b, 8)
    ensures m == n <==> a == b
  {
    assert Pow2(8) == 256;
    XorCancels(m % 256, a, n % 256, b, 8);
  }

  lemma XorByteIsInjective(g: Word, a: Byte, h: Word, b: Byte)
    requires Mask(XorByte(g, a)) == Mask(XorByte(h, b))
    ensures Mask(g) == Mask(h) <==> a == b
  {
    var m, n := Mask(g), Mask(h);
    MaskOfXor(g, a);
    MaskOfXor(h, b);
    SplitIsUnique(m / 256, Xor(m % 256, a, 8), n / 256, Xor(n % 256, b, 8));
    XorLow(m, a, n, b);
  }

  lemma MaskOfProduct(m: nat)
    ensures Mask(m % TWO64) == m % TWO63
  {
  }

  /** Equal states after a step come from equal states exactly when the bytes are equal. */
  lemma StepIsInjective(g: Word, a: Byte, h: Word, b: Byte)
    requires Mask(Step(g, a)) == Mask(Step(h, b))
    ensures Mask(g) == Mask(h) <==> a == b
  {
    var x, y := XorByte(g, a), XorByte(h, b);
    MaskOfProduct(x * PRIME);
    MaskOfProduct(y * PRIME);
    assert x * PRIME % TWO63 == y * PRIME % TWO63;
    TimesPrimeIsInjective(x, y);
    XorByteIsInjective(g, a, h, b);
  }

  predicate DifferAt(a: seq<Byte>, b: seq<Byte>, i: nat) {
    i < |a| == |b| && a[i] != b[i] && forall j :: 0 <= j < |a| && j != i ==> a[j] == b[j]
  }

  /** Two inputs of one length that differ in a single byte never have the same masked hash. */
  lemma {:induction false} OneByteSeparates(a: seq<Byte>, b: seq<Byte>, i: nat)
    requires DifferAt(a, b, i)
    ensures Mask(Fnv1a(a)) != Mask(Fnv1a(b))
  {
    var n := |a| - 1;
    if i == n {
      assert a[..n] == b[..n];
    } else {
      assert DifferAt(a[..n], b[..n], i);
      OneByteSeparates(a[..n], b[..n], i);
    }
    if Mask(Fnv1a(a)) == Mask(Fnv1a(b)) {
      StepIsInjective(Fnv1a(a[..n]), a[n], Fnv1a(b[..n]), b[n]);
    }
  }

  // ---- The terminated encoding ----

  predicate NulFree(parts: seq<Part>) {
    forall i :: 0 <= i < |parts| ==> 0 !in parts[i]
  }

  predicate FirstNul(s: seq<Byte>, i: nat) {
    i < |s| && s[i] == 0 && forall j :: 0 <= j < i ==> s[j] != 0
  }

  lemma PartEndsAtFirstNul(p: Part, x: seq<Byte>)
    requires 0 !in p
    ensures FirstNul(p + [0] + x, |p|)
  {
    assert forall j :: 0 <= j < |p| ==> (p + [0] + x)[j] == p[j];
  }

  lemma FirstPartIsUnique(p: Part, x: seq<Byte>, q: Part, y: seq<Byte>)
    requires 0 !in p && 0 !in q && p + [0] + x == q + [0] + y
    ensures p == q && x == y
  {
    var s, t := p + [0] + x, q + [0] + y;
    PartEndsAtFirstNul(p, x);
    PartEndsAtFirstNul(q, y);
    assert s[..|p|] == p && t[..|q|] == q;
    assert s[|p| + 1..] == x && t[|q| + 1..] == y;
  }

  /** NUL-free parts can be read back from the encoding. */
  lemma {:induction false} EncodeIsInjective(a: seq<Part>, b: seq<Part>)
    requires NulFree(a) && NulFree(b)
    ensures Encode(a) == Encode(b) <==> a == b
  {
    if Encode(a) == Encode(b) && a != [] && b != [] {
      FirstPartIsUnique(a[0], Encode(a[1..]), b[0], Encode(b[1..]));
      EncodeIsInjective(a[1..], b[1..]);
      assert a == [a[0]] + a[1..] && b == [b[0]] + b[1..];
    }
  }

  /** Parts that differ in one byte of one part give different seeds. */
  lemma {:induction false} OneByteOfPartSeparates(before: seq<Part>, p: Part, q: Part, after: seq<Part>, i: nat)
    requires DifferAt(p, q, i)
    ensures Seed(before + [p] + after) != Seed(before + [q] + after)
  {
    EncodeAround(before, p, after);
    EncodeAround(before, q, after);
    var x, y := Encode(before), [0] + Encode(after);
    assert DifferAt(x + p + y, x + q + y, |x| + i);
    OneByteSeparates(x + p + y, x + q + y, |x| + i);
  }

  lemma {:induction false} EncodeAround(before: seq<Part>, p: Part, after: seq<Part>)
    ensures Encode(before + [p] + after) == Encode(before) + p + ([0] + Encode(after))
  {
    var all := before + [p] + after;
    if before == [] {
      assert all[1..] == after;
    } else {
      assert all[1..] == before[1..] + [p] + after;
      EncodeAround(before[1..], p, after);
    }
  }

  // ---- What is seeded ----

  /** The four things a work order derives seeds for, with what each seed depends on. */
  datatype Source =
    | GlobalData(deployment: Part, run: Part, disk: nat)
    | LocalData(deployment: Part, vm: Part, run: Part, disk: nat)
    | WholeRun(deployment: Part, run: Part)

  function Ascii(s: string): (p: Part)
    ensures |p| == |s| && forall i :: 0 <= i < |s| ==> p[i] == s[i] as int % 256
  {
    seq(|s|, i requires 0 <= i < |s| => s[i] as int % 256)
  }

  function Parts(s: Source): seq<Part> {
    match s
    case GlobalData(deployment, run, disk) => [deployment, Ascii("global"), run, Ascii(Decimal(disk))]
    case LocalData(deployment, vm, run, disk) => [deployment, vm, Ascii("local"), run, Ascii(Decimal(disk))]
    case WholeRun(deployment, run) => [deployment, Ascii("run"), run]
  }

  predicate Plain(s: Source) {
    0 !in s.deployment && 0 !in s.run && (s.LocalData? ==> 0 !in s.vm)
  }

  lemma DecimalBytes(n: nat)
    ensures 0 !in Ascii(Decimal(n))
    ensures forall m :: Ascii(Decimal(m)) == Ascii(Decimal(n)) ==> m == n
  {
    DecimalReadsBack(n);
    DigitsAreNotZero(Decimal(n));
    forall m | Ascii(Decimal(m)) == Ascii(Decimal(n)) ensures m == n {
      SameDecimal(m, n);
    }
  }

  lemma DigitsAreNotZero(s: string)
    requires AllDigits(s)
    ensures 0 !in Ascii(s)
  {
  }

  lemma SameDecimal(m: nat, n: nat)
    requires Ascii(Decimal(m)) == Ascii(Decimal(n))
    ensures m == n
  {
    DecimalReadsBack(m);
    DecimalReadsBack(n);
    SameAscii(Decimal(m), Decimal(n));
  }

  lemma SameAscii(a: string, b: string)
    requires AllDigits(a) && AllDigits(b) && Ascii(a) == Ascii(b)
    ensures a == b
  {
    assert forall i :: 0 <= i < |a| ==> Ascii(a)[i] == Ascii(b)[i];
    assert forall i :: 0 <= i < |a| ==> a[i] as int == b[i] as int;
  }

  lemma PlainParts(s: Source)
    requires Plain(s)
    ensures NulFree(Parts(s))
  {
    if !s.WholeRun? {
      DecimalBytes(s.disk);
    }
  }

  /** Every pair of distinct sources hashes distinct inputs: no run, VM, disk or kind shares one. */
  lemma SourcesAreDistinct(a: Source, b: Source)
    requires Plain(a) && Plain(b)
    ensures Encode(Parts(a)) == Encode(Parts(b)) <==> a == b
  {
    PlainParts(a);
    PlainParts(b);
    EncodeIsInjective(Parts(a), Parts(b));
    if Parts(a) == Parts(b) {
      assert |Parts(a)| == |Parts(b)|;
      SameParts(a, b);
    }
  }

  lemma SameParts(a: Source, b: Source)
    requires Parts(a) == Parts(b)
    ensures a == b
  {
    var x, y := Parts(a), Parts(b);
    assert |x| == |y|;
    assert forall i :: 0 <= i < |x| ==> x[i] == y[i];
    if !a.WholeRun? {
      DecimalBytes(b.disk);
      assert x[|x| - 1] == y[|x| - 1];
    }
  }

  // ---- The work order ----

  datatype Recipe = Recipe(
    disksPerVM: int, diskSizeGiB: int, dataPerDiskGiB: int, compress: real, dedupe: real, crossVM: real,
    change: real, growth: real)

  datatype DiskWork = DiskWork(
    index: nat, sizeGiB: int, globalBytes: int, localBytes: int, globalSeed: nat, localSeed: nat)

  datatype RunType = InitialFill | Incremental | Verify

  datatype WorkOrder = WorkOrder(
    runType: RunType, run: Part, vm: Part, compress: int, dedupe: int, change: real, growth: real, runSeed: nat, disks: seq<DiskWork>)

  /** Conversion of a float to an integer: toward zero. */
  function Trunc(x: real): int {
    if x >= 0.0 then x.Floor else -((-x).Floor)
  }

  const GIB := 0x4000_0000

  function Pct(v: real): (r: int)
    ensures 0 <= r <= 100
    ensures 0.0 <= v <= 100.0 ==> r as real - 0.5 <= v < r as real + 0.5
    ensures v < 0.0 ==> r == 0
    ensures v > 100.0 ==> r == 100
  {
    var r := Trunc(v + 0.5);
    if r < 0 then 0 else if r > 100 then 100 else r
  }

  /** The seeds and byte counts every disk of an order must have. */
  predicate DiskWorkIsFor(d: DiskWork, deployment: Part, run: Part, vm: Part, spec: Recipe, i: nat) {
    && d.index == i && d.sizeGiB == spec.diskSizeGiB
    && d.globalBytes + d.localBytes == spec.dataPerDiskGiB * GIB
    && d.globalBytes == Trunc((spec.dataPerDiskGiB * GIB) as real * spec.crossVM / 100.0)
    && d.globalSeed == Seed(Parts(GlobalData(deployment, run, i)))
    && d.localSeed == Seed(Parts(LocalData(deployment, vm, run, i)))
  }

  predicate OrderIsFor(wo: WorkOrder, deployment: Part, run: Part, vm: Part, spec: Recipe) {
    && wo.run == run && wo.vm == vm && wo.change == spec.change && wo.growth == spec.growth
    && wo.compress == Pct(spec.compress) && wo.dedupe == Pct(spec.dedupe)
    && wo.runSeed == Seed(Parts(WholeRun(deployment, run)))
    && |wo.disks| == (if spec.disksPerVM < 0 then 0 else spec.disksPerVM)
    && forall i :: 0 <= i < |wo.disks| ==> DiskWorkIsFor(wo.disks[i], deployment, run, vm, spec, i)
  }

  method BuildWorkOrder(deployment: Part, runType: RunType, run: Part, vm: Part, spec: Recipe) returns (wo: WorkOrder)
    ensures OrderIsFor(wo, deployment, run, vm, spec) && wo.runType == runType
  {
    var dataBytes := spec.dataPerDiskGiB * GIB;
    var globalBytes := Trunc(dataBytes as real * spec.crossVM / 100.0);
    var localBytes := dataBytes - globalBytes;
    var disks: seq<DiskWork> := [];
    var i := 0;
    while i < spec.disksPerVM
      invariant 0 <= i == |disks|
      invariant i <= if spec.disksPerVM < 0 then 0 else spec.disksPerVM
      invariant forall j :: 0 <= j < i ==> DiskWorkIsFor(disks[j], deployment, run, vm, spec, j)
    {
      var work := DiskWork(i, spec.diskSizeGiB, globalBytes, localBytes,
                           Seed(Parts(GlobalData(deployment, run, i))),
                           Seed(Parts(LocalData(deployment, vm, run, i))));
      disks := disks + [work];
      i := i + 1;
    }
    wo := WorkOrder(runType, run, vm, Pct(spec.compress), Pct(spec.dedupe), spec.change, spec.growth,
                    Seed(Parts(WholeRun(deployment, run))), disks);
  }

  /** Two VMs of one run get the same shared data on every disk: same size, same seed. */
  lemma GlobalDataIsShared(a: WorkOrder, b: WorkOrder, deployment: Part, run: Part, vmA: Part, vmB: Part, spec: Recipe)
    requires OrderIsFor(a, deployment, run, vmA, spec) && OrderIsFor(b, deployment, run, vmB, spec)
    ensures |a.disks| == |b.disks| && a.runSeed == b.runSeed
    ensures forall i :: 0 <= i < |a.disks| ==>
      a.disks[i].globalBytes == b.disks[i].globalBytes && a.disks[i].globalSeed == b.disks[i].globalSeed
  {
    forall i | 0 <= i < |a.disks|
      ensures a.disks[i].globalBytes == b.disks[i].globalBytes && a.disks[i].globalSeed == b.disks[i].globalSeed
    {
      assert DiskWorkIsFor(a.disks[i], deployment, run, vmA, spec, i);
      assert DiskWorkIsFor(b.disks[i], deployment, run, vmB, spec, i);
    }
  }

  lemma ShareOf(total: nat, percent: real)
    requires 0.0 <= percent <= 100.0
    ensures 0 <= Trunc(total as real * percent / 100.0) <= total
  {
    assert 0.0 <= total as real * percent <= total as real * 100.0;
    TruncWithin(total as real * percent / 100.0, total);
  }

  lemma TruncWithin(x: real, n: nat)
    requires 0.0 <= x <= n as real
    ensures 0 <= Trunc(x) <= n
  {
  }

  /** The shared part of every disk is the cross-VM percentage of its payload, fractions of a byte dropped. */
  lemma GlobalIsCrossVM(wo: WorkOrder, deployment: Part, run: Part, vm: Part, spec: Recipe, i: nat)
    requires OrderIsFor(wo, deployment, run, vm, spec) && i < |wo.disks|
    requires spec.dataPerDiskGiB >= 0 && 0.0 <= spec.crossVM <= 100.0
    ensures var share := (spec.dataPerDiskGiB * GIB) as real * spec.crossVM / 100.0;
      wo.disks[i].globalBytes as real <= share < wo.disks[i].globalBytes as real + 1.0
  {
    assert DiskWorkIsFor(wo.disks[i], deployment, run, vm, spec, i);
    ShareIsPositive(spec.dataPerDiskGiB * GIB, spec.crossVM);
  }

  lemma ShareIsPositive(total: nat, percent: real)
    requires 0.0 <= percent
    ensures total as real * percent / 100.0 >= 0.0
  {
    assert total as real * percent >= 0.0;
  }

  /** For a validated spec the payload is split without loss, and no part is negative. */
  lemma SplitIsExact(wo: WorkOrder, deployment: Part, run: Part, vm: Part, spec: Recipe, i: nat)
    requires OrderIsFor(wo, deployment, run, vm, spec) && i < |wo.disks|
    requires spec.dataPerDiskGiB >= 0 && 0.0 <= spec.crossVM <= 100.0
    ensures 0 <= wo.disks[i].globalBytes && 0 <= wo.disks[i].localBytes
    ensures wo.disks[i].globalBytes + wo.disks[i].localBytes == spec.dataPerDiskGiB * GIB
  {
    assert DiskWorkIsFor(wo.disks[i], deployment, run, vm, spec, i);
    ShareOf(spec.dataPerDiskGiB * GIB, spec.crossVM);
  }

  /** VMs whose names differ in one character never share local seeds, on any disk. */
  lemma LocalSeedsDiffer(a: WorkOrder, b: WorkOrder, deployment: Part, run: Part, vmA: Part, vmB: Part, spec: Recipe, k: nat)
    requires OrderIsFor(a, deployment, run, vmA, spec) && OrderIsFor(b, deployment, run, vmB, spec)
    requires DifferAt(vmA, vmB, k)
    ensures forall i :: 0 <= i < |a.disks| && i < |b.disks| ==> a.disks[i].localSeed != b.disks[i].localSeed
  {
    forall i | 0 <= i < |a.disks| && i < |b.disks| ensures a.disks[i].localSeed != b.disks[i].localSeed {
      assert DiskWorkIsFor(a.disks[i], deployment, run, vmA, spec, i);
      assert DiskWorkIsFor(b.disks[i], deployment, run, vmB, spec, i);
      LocalSeedsOfNeighbours(deployment, run, vmA, vmB, i, k);
    }
  }

  lemma LocalSeedsOfNeighbours(deployment: Part, run: Part, vmA: Part, vmB: Part, disk: nat, k: nat)
    requires DifferAt(vmA, vmB, k)
    ensures Seed(Parts(LocalData(deployment, vmA, run, disk))) != Seed(Parts(LocalData(deployment, vmB, run, disk)))
  {
    var after := [Ascii("local"), run, Ascii(Decimal(disk))];
    OneByteOfPartSeparates([deployment], vmA, vmB, after, k);
    assert Parts(LocalData(deployment, vmA, run, disk)) == [deployment] + [vmA] + after;
    assert Parts(LocalData(deployment, vmB, run, disk)) == [deployment] + [vmB] + after;
  }
}
