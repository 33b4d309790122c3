/** The seeds of an incremental's fio jobs, and whose data they make alike (cmd/agent/gen.go:436-450, internal/datagen/datagen.go:153-156). */
module JobSeeds {
  import opened Seeds
  import opened ChangeSet
  import opened Disk
  import opened Churn

  /** How far exclusive or with `c` moves every k-bit number at least: each bit of `c` below the top one can take back its weight. */
  function Reach(c: nat, k: nat): int {
    if k <= 1 then c % 2 else 2 * Reach(c / 2, k - 1) - c % 2
  }

  function Distance(a: int, b: int): nat {
    if a < b then b - a else a - b
  }

  lemma {:induction false} XorMoves(x: nat, c: nat, k: nat)
    requires k >= 1 && x < Pow2(k) && c < Pow2(k)
    ensures Distance(Xor(x, c, k), x) >= Reach(c, k)
  {
    if k == 1 {
      assert Xor(x / 2, c / 2, 0) == 0 && Pow2(1) == 2;
    } else {
      XorMoves(x / 2, c / 2, k - 1);
      XorStep(x, c, k);
    }
  }

  lemma XorStep(x: nat, c: nat, k: nat)
    requires k >= 1
    ensures Distance(Xor(x, c, k), x) >= 2 * Distance(Xor(x / 2, c / 2, k - 1), x / 2) - c % 2
  {
  }

  const GROW_MASK := 0x9e37

  /** The growth seed is at least this far from the run seed. */
  const GAP := 25033

  lemma MaskReach()
    ensures Reach(GROW_MASK, 16) == GAP
  {
    assert Reach(0x9e37 / 256, 8) == 98;
    assert Reach(0x9e37 / 16, 12) == 1565;
  }

  lemma GrowSeedIsFar(wo: WorkOrder)
    ensures Distance(GrowSeed(wo), wo.runSeed) >= GAP
  {
    assert Pow2(8) == 256;
    assert Pow2(16) == 65536;
    XorMoves(wo.runSeed % 65536, GROW_MASK, 16);
    MaskReach();
  }

  /** Within a disk, no two jobs of an incremental share a seed as long as it rewrites at most 25033 files. */
  lemma JobsHaveOwnSeeds(wo: WorkOrder, n: nat)
    requires wo.runSeed < TWO63 && n <= GAP
    ensures forall i, j :: 0 <= i < j < n ==> FileSeed(wo, i) != FileSeed(wo, j)
    ensures forall i :: 0 <= i < n ==> FileSeed(wo, i) != GrowSeed(wo)
  {
    GrowSeedIsFar(wo);
  }

  lemma GapIsReached()
    ensures Xor(0x1e37, GROW_MASK, 16) == 0x1e37 + GAP
  {
    assert Xor(0x1, 0x9, 4) == 0x8;
    assert Xor(0x1e, 0x9e, 8) == 0x80;
    assert Xor(0x1e3, 0x9e3, 12) == 0x800;
    assert Xor(0x1e37, 0x9e37, 16) == 0x8000;
  }

  lemma LowSeeds(wo: WorkOrder, low: nat, x: nat)
    requires wo.runSeed < TWO63 && wo.runSeed % 65536 == low && low + x < 65536 && Xor(low, GROW_MASK, 16) == low + x
    ensures FileSeed(wo, x) == GrowSeed(wo)
  {
    assert wo.runSeed == wo.runSeed / 65536 * 65536 + low;
  }

  /** The bound is tight: under a run seed that ends in these 16 bits the next rewrite takes the growth job's seed. */
  lemma SeedsMeetAtTheGap(wo: WorkOrder)
    requires wo.runSeed < TWO63 && wo.runSeed % 65536 == 0x1e37
    ensures FileSeed(wo, GAP) == GrowSeed(wo)
  {
    GapIsReached();
    LowSeeds(wo, 0x1e37, GAP);
  }

  /** Two VMs of one run, or two disks of one VM: the i-th rewritten files hold the same data where their sizes agree. */
  lemma RewritesAreShared(w: World, a: WorkOrder, b: WorkOrder, deployment: Part, run: Part, vmA: Part, vmB: Part, spec: Recipe,
                          p: seq<PlanFile>, q: seq<PlanFile>, i: nat, x: map<Rel, Content>, y: map<Rel, Content>)
    requires OrderIsFor(a, deployment, run, vmA, spec) && OrderIsFor(b, deployment, run, vmB, spec)
    requires i < |p| && i < |q| && p[i].size == q[i].size
    ensures Rewritten(w, a, x, p, i + 1)[Rel(LocalDir, p[i].name)] == Rewritten(w, b, y, q, i + 1)[Rel(LocalDir, q[i].name)]
  {
  }
}
