/** Byte accounting across fio jobs (cmd/agent/progress.go:18-118). */
module Progress {
  import opened Seeds

  class Progress {
    var base: int
    var jobBytes: int
    var jobFrac: real

    constructor ()
      ensures base == 0 && jobBytes == 0 && jobFrac == 0.0
    {
      base, jobBytes, jobFrac := 0, 0, 0.0;
    }

    /** What the jobs started so far will have written when they are done. */
    function Planned(): int
      reads this
    {
      base + jobBytes
    }

    function Bytes(): int
      reads this
    {
      base + Trunc(jobFrac * jobBytes as real)
    }

    /** Every started job has finished. */
    predicate Settled()
      reads this
    {
      jobFrac == 1.0 || jobBytes == 0
    }

    method StartJob(bytes: int)
      modifies this
      ensures base == old(Planned()) && jobBytes == bytes && jobFrac == 0.0
    {
      base := base + jobBytes;
      jobBytes := bytes;
      jobFrac := 0.0;
    }

    method Update(frac: real)
      modifies this`jobFrac
      ensures jobFrac == frac
    {
      jobFrac := frac;
    }

    /** One fio job: status lines with a percentage move the fraction; a success ends at the whole job. */
    method RunFio(bytes: nat, percents: seq<real>, ok: bool)
      modifies this
      ensures Planned() == old(Planned()) + bytes
      ensures ok ==> Settled()
      ensures !ok && (forall i :: 0 <= i < |percents| ==> 0.0 <= percents[i] <= 100.0) ==>
        old(Planned()) <= Bytes() <= Planned()
    {
      StartJob(bytes);
      for i := 0 to |percents|
        invariant base == old(Planned()) && jobBytes == bytes
        invariant (forall i :: 0 <= i < |percents| ==> 0.0 <= percents[i] <= 100.0) ==> 0.0 <= jobFrac <= 1.0
      {
        Update(percents[i] / 100.0);
      }
      if ok {
        Update(1.0);
      }
      FractionOfJob(jobFrac, bytes);
    }
  }

  lemma FractionOfJob(f: real, n: nat)
    ensures 0.0 <= f <= 1.0 ==> 0 <= Trunc(f * n as real) <= n
  {
    if 0.0 <= f <= 1.0 {
      assert 0.0 <= f * n as real <= 1.0 * n as real;
    }
  }

  /** With every job finished, the bytes reported are the bytes planned. */
  lemma SettledBytes(p: Progress)
    requires p.Settled()
    ensures p.Bytes() == p.Planned()
  {
    assert p.jobBytes == 0 ==> p.jobFrac * p.jobBytes as real == 0.0;
  }
}
