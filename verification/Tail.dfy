/** The rolling tail of a console stream (internal/hypervisor/vsphere/driver.go:804-832). */
module Tail {
  import opened Common

  type Byte = bv8

  const CHUNK := 65536

  /** What the reader delivers, one element per Read call; it ends with EOF or fails. */
  datatype Stream = Stream(chunks: seq<seq<Byte>>, fails: bool)

  predicate Readable(s: Stream) {
    forall i :: 0 <= i < |s.chunks| ==> |s.chunks[i]| <= CHUNK
  }

  function NonNul(s: seq<Byte>): seq<Byte> {
    if s == [] then []
    else if s[|s| - 1] == 0 then NonNul(s[..|s| - 1])
    else NonNul(s[..|s| - 1]) + [s[|s| - 1]]
  }

  function LastN(s: seq<Byte>, n: nat): (r: seq<Byte>)
    ensures |r| == (if |s| < n then |s| else n)
  {
    if |s| <= n then s else s[|s| - n..]
  }

  function Flatten(chunks: seq<seq<Byte>>): seq<Byte> {
    if chunks == [] then [] else Flatten(chunks[..|chunks| - 1]) + chunks[|chunks| - 1]
  }

  lemma {:induction false} NonNulConcat(a: seq<Byte>, b: seq<Byte>)
    ensures NonNul(a + b) == NonNul(a) + NonNul(b)
  {
    if b == [] {
      assert a + b == a;
    } else {
      assert (a + b)[..|a + b| - 1] == a + b[..|b| - 1];
      NonNulConcat(a, b[..|b| - 1]);
    }
  }

  lemma {:induction false} NonNulBounds(s: seq<Byte>)
    ensures |NonNul(s)| <= |s| && 0 !in NonNul(s)
    ensures 0 !in s ==> NonNul(s) == s
  {
    if s != [] {
      NonNulBounds(s[..|s| - 1]);
    }
  }

  /** Forgetting all but the last `k >= n` bytes early does not change the last `n` at the end. */
  lemma LastOfLast(a: seq<Byte>, b: seq<Byte>, k: nat, n: nat)
    requires n <= k
    ensures LastN(LastN(a, k) + b, n) == LastN(a + b, n)
  {
    if |a| > k {
      var cut := |a| - k;
      assert LastN(a, k) + b == (a + b)[cut..];
    }
  }

  /** The result of tailText depends on the bytes delivered, not on how they were cut into reads. */
  function TailText(s: Stream, n: nat): Result<seq<Byte>, ()> {
    if s.fails then Err(()) else Ok(LastN(NonNul(Flatten(s.chunks)), n))
  }

  /** The kept bytes stand for everything read so far, as far as the last `n` bytes go. */
  predicate Stands(kept: seq<Byte>, chunks: seq<seq<Byte>>, n: nat) {
    LastN(kept, n) == LastN(NonNul(Flatten(chunks)), n)
  }

  lemma StandsAfterRead(kept: seq<Byte>, chunks: seq<seq<Byte>>, i: nat, n: nat)
    requires i < |chunks| && Stands(kept, chunks[..i], n)
    ensures Stands(kept + NonNul(chunks[i]), chunks[..i + 1], n)
  {
    assert chunks[..i + 1][..i] == chunks[..i];
    var all, more := NonNul(Flatten(chunks[..i])), NonNul(chunks[i]);
    NonNulConcat(Flatten(chunks[..i]), chunks[i]);
    LastOfLast(kept, more, n, n);
    LastOfLast(all, more, n, n);
  }

  lemma StandsAfterCompacting(kept: seq<Byte>, chunks: seq<seq<Byte>>, n: nat)
    requires Stands(kept, chunks, n)
    ensures Stands(LastN(kept, n), chunks, n)
  {
  }

  /** The compacting buffer of the source: it never holds more than `2n` bytes and one chunk. */
  method ReadTail(s: Stream, n: nat) returns (r: Result<seq<Byte>, ()>)
    requires Readable(s)
    ensures r == TailText(s, n)
  {
    var buf := new Byte[2 * n + CHUNK];
    var len: nat := 0;
    for i := 0 to |s.chunks|
      invariant len <= 2 * n
      invariant Stands(buf[..len], s.chunks[..i], n)
    {
      StandsAfterRead(buf[..len], s.chunks, i, n);
      len := AppendNonNul(buf, len, s.chunks[i]);
      if len > 2 * n {
        StandsAfterCompacting(buf[..len], s.chunks[..i + 1], n);
        Compact(buf, len, n);
        len := n;
      }
    }
    assert s.chunks[..|s.chunks|] == s.chunks;
    if s.fails {
      return Err(());
    }
    return Ok(if len > n then buf[len - n..len] else buf[..len]);
  }

  method AppendNonNul(buf: array<Byte>, start: nat, chunk: seq<Byte>) returns (len: nat)
    requires start + |chunk| <= buf.Length
    modifies buf
    ensures len == start + |NonNul(chunk)| <= start + |chunk|
    ensures buf[..len] == old(buf[..start]) + NonNul(chunk)
  {
    len := start;
    for j := 0 to |chunk|
      invariant len == start + |NonNul(chunk[..j])| <= start + j
      invariant buf[..len] == old(buf[..start]) + NonNul(chunk[..j])
    {
      assert chunk[..j + 1][..j] == chunk[..j];
      if chunk[j] != 0 {
        buf[len] := chunk[j];
        len := len + 1;
      }
    }
    assert chunk[..|chunk|] == chunk;
  }

  /** Moves the last `n` of the first `len` bytes to the front. */
  method Compact(buf: array<Byte>, len: nat, n: nat)
    requires 2 * n < len <= buf.Length
    modifies buf
    ensures buf[..n] == old(LastN(buf[..len], n))
  {
    for k := 0 to n
      invariant forall j :: 0 <= j < k ==> buf[j] == old(buf[len - n + j])
      invariant forall j :: n <= j < buf.Length ==> buf[j] == old(buf[j])
    {
      buf[k] := buf[len - n + k];
    }
    ghost var kept := old(LastN(buf[..len], n));
    assert forall j :: 0 <= j < n ==> buf[..n][j] == kept[j];
  }

  /** Two streams of the same bytes have the same tail; the tail is a NUL-free suffix, whole when it fits. */
  lemma TailIsExact(s: Stream, t: Stream, n: nat)
    requires Flatten(s.chunks) == Flatten(t.chunks) && !s.fails && !t.fails
    ensures TailText(s, n) == TailText(t, n)
    ensures var k := NonNul(Flatten(s.chunks));
      var r := TailText(s, n).value;
      0 !in r && |r| == (if |k| < n then |k| else n) && (exists front :: front + r == k)
  {
    var k := NonNul(Flatten(s.chunks));
    var r := TailText(s, n).value;
    NonNulBounds(Flatten(s.chunks));
    assert k[..|k| - |r|] + r == k;
    assert forall x :: x in r ==> x in k;
  }
}
