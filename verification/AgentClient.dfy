/** The agent's side of the protocol: starting runs and delivering final reports (cmd/agent/main.go:99-221). */
module AgentClient {
  import opened Common

  type RunID = string

  /** `flight` holds the runs executing, one entry per execution. */
  datatype State = State(running: RunID, completed: set<RunID>, flight: multiset<RunID>, starts: map<RunID, nat>)

  datatype Event = Offer(run: RunID) | Finish(run: RunID)

  const FRESH := State("", {}, multiset{}, map[])

  function Starts(s: State, run: RunID): nat {
    if run in s.starts then s.starts[run] else 0
  }

  predicate Accepts(s: State, run: RunID) {
    s.running != run && run !in s.completed
  }

  function Step(s: State, e: Event): State {
    match e
    case Offer(run) =>
      if Accepts(s, run) then
        s.(running := run, flight := s.flight + multiset{run}, starts := s.starts[run := Starts(s, run) + 1])
      else s
    case Finish(run) =>
      if run in s.flight then s.(running := "", completed := s.completed + {run}, flight := s.flight - multiset{run}) else s
  }

  function Play(h: seq<Event>): State {
    if h == [] then FRESH else Step(Play(h[..|h| - 1]), h[|h| - 1])
  }

  /** No order is accepted while another run executes. */
  predicate Serial(h: seq<Event>) {
    h == [] ||
      var s, e := Play(h[..|h| - 1]), h[|h| - 1];
      Serial(h[..|h| - 1]) && (e.Offer? && Accepts(s, e.run) ==> s.flight <= multiset{e.run})
  }

  predicate SerialInv(s: State) {
    && s.flight == (if s.running == "" then multiset{} else multiset{s.running})
    && (s.running != "" ==> s.running !in s.completed)
    && forall r :: r in s.starts ==> r != "" && s.starts[r] == 1 && (r in s.completed || r == s.running)
  }

  lemma {:induction false} SerialKeeps(h: seq<Event>)
    requires Serial(h) && forall k :: 0 <= k < |h| ==> h[k].run != ""
    ensures SerialInv(Play(h))
  {
    if h != [] {
      var n := |h| - 1;
      SerialKeeps(h[..n]);
      SerialStep(Play(h[..n]), h[n]);
    }
  }

  lemma SingletonsNest(a: RunID, b: RunID)
    requires multiset{a} <= multiset{b}
    ensures a == b
  {
    assert multiset{a}[a] <= multiset{b}[a];
  }

  lemma SerialStep(s: State, e: Event)
    requires SerialInv(s) && e.run != "" && (e.Offer? && Accepts(s, e.run) ==> s.flight <= multiset{e.run})
    ensures SerialInv(Step(s, e))
  {
    if s.running != "" {
      assert s.flight[s.running] == 1;
      if e.Offer? && Accepts(s, e.run) {
        SingletonsNest(s.running, e.run);
      }
      if e.Finish? && e.run in s.flight {
        assert e.run == s.running;
      }
    }
  }

  /** While runs do not overlap, none executes twice, however often its order is handed out. */
  lemma AtMostOnce(h: seq<Event>, run: RunID)
    requires Serial(h) && forall k :: 0 <= k < |h| ==> h[k].run != ""
    ensures Starts(Play(h), run) <= 1
  {
    SerialKeeps(h);
  }

  /** At some point the run was offered while it was executing, not completed, and the guard did not name it: another
      run had been accepted, or had ended, in between. */
  predicate OfferedUnguarded(h: seq<Event>, run: RunID) {
    h != [] &&
    var before, e := h[..|h| - 1], h[|h| - 1];
    OfferedUnguarded(before, run)
    || (e == Offer(run) && run in Play(before).flight && run !in Play(before).completed && Play(before).running != run)
  }

  /** What was started executes or is completed, and nothing else executes. */
  ghost predicate StartedInv(s: State) {
    forall r :: (Starts(s, r) > 0 ==> r in s.completed || r in s.flight) && (r in s.flight ==> Starts(s, r) > 0)
  }

  lemma StartedStep(s: State, e: Event)
    requires StartedInv(s)
    ensures StartedInv(Step(s, e))
  {
    forall r ensures Starts(Step(s, e), r) >= Starts(s, r) {
    }
    if e.Finish? && e.run in s.flight {
      assert forall r :: r in Step(s, e).flight ==> r in s.flight;
      assert forall r :: r in s.flight && r != e.run ==> r in Step(s, e).flight;
    }
  }

  lemma {:induction false} StartedHolds(h: seq<Event>)
    ensures StartedInv(Play(h))
  {
    if h != [] {
      StartedHolds(h[..|h| - 1]);
      StartedStep(Play(h[..|h| - 1]), h[|h| - 1]);
    }
  }

  /** Over every history, a run is started more than once if and only if it was at some point offered while executing
      and unguarded. */
  lemma {:induction false} StartsAgainExactly(h: seq<Event>, run: RunID)
    ensures Starts(Play(h), run) > 1 <==> OfferedUnguarded(h, run)
  {
    if h != [] {
      StartsAgainExactly(h[..|h| - 1], run);
      StartedHolds(h[..|h| - 1]);
    }
  }

  lemma Then(h: seq<Event>, e: Event)
    ensures Play(h + [e]) == Step(Play(h), e)
  {
    assert (h + [e])[..|h|] == h;
  }

  /** Two overlapping runs: the second's end clears the guard of the first, which then executes twice at once. */
  lemma OverlapRunsTwice()
    ensures Play([Offer("a")] + [Offer("b")] + [Finish("b")] + [Offer("a")]).flight["a"] == 2
  {
    Then([], Offer("a"));
    assert [] + [Offer("a")] == [Offer("a")];
    Then([Offer("a")], Offer("b"));
    Then([Offer("a")] + [Offer("b")], Finish("b"));
    Then([Offer("a")] + [Offer("b")] + [Finish("b")], Offer("a"));
  }

  class Client {
    var running: RunID
    var completed: set<RunID>
    ghost var flight: multiset<RunID>
    ghost var starts: map<RunID, nat>

    constructor ()
      ensures Now() == FRESH
    {
      running, completed, flight, starts := "", {}, multiset{}, map[];
    }

    ghost function Now(): State
      reads this
    {
      State(running, completed, flight, starts)
    }

    /** True when a goroutine is launched. */
    method Dispatch(run: RunID) returns (launched: bool)
      modifies this
      ensures Now() == Step(old(Now()), Offer(run)) && launched == old(Accepts(Now(), run))
    {
      if running == run || run in completed {
        return false;
      }
      running := run;
      flight, starts := flight + multiset{run}, starts[run := Starts(Now(), run) + 1];
      return true;
    }

    /** The end of a launched goroutine. */
    method Finished(run: RunID)
      requires run in flight
      modifies this
      ensures Now() == Step(old(Now()), Finish(run))
    {
      completed := completed + {run};
      running := "";
      flight := flight - multiset{run};
    }
  }

  // ---- Final reports ----

  const ATTEMPTS := 12

  /** The wait after the k-th failed attempt, in units of the first wait (1 s). */
  function Backoff(k: nat): (b: nat)
    ensures b in {1, 2, 4, 8, 16}
  {
    if k == 0 then 1 else if Backoff(k - 1) < 15 then 2 * Backoff(k - 1) else Backoff(k - 1)
  }

  /** When the k-th attempt (from 0) is made, if none before it was accepted. */
  function At(k: nat): nat {
    if k == 0 then 0 else At(k - 1) + Backoff(k - 1)
  }

  /** Whether the controller accepts a post at a time; posts themselves take none. */
  method PostReliable(up: nat -> bool) returns (delivered: bool, attempts: nat)
    ensures 1 <= attempts <= ATTEMPTS
    ensures delivered <==> !Refused(up, ATTEMPTS)
    ensures Refused(up, attempts - 1) && (delivered <==> up(At(attempts - 1)))
  {
    var backoff, time := 1, 0;
    attempts := 0;
    while attempts < ATTEMPTS
      invariant 0 <= attempts <= ATTEMPTS && time == At(attempts) && backoff == Backoff(attempts)
      invariant Refused(up, attempts)
    {
      attempts := attempts + 1;
      if up(time) {
        return true, attempts;
      }
      AtNext(attempts);
      time := time + backoff;
      if backoff < 15 {
        backoff := backoff * 2;
      }
    }
    return false, attempts;
  }

  /** The first `n` attempts all failed. */
  predicate Refused(up: nat -> bool, n: nat) {
    n == 0 || (Refused(up, n - 1) && !up(At(n - 1)))
  }

  lemma {:induction false} RefusedMeans(up: nat -> bool, n: nat)
    ensures Refused(up, n) <==> !exists k: nat :: k < n && up(At(k))
  {
    if n > 0 {
      RefusedMeans(up, n - 1);
      assert up(At(n - 1)) ==> exists k: nat :: k < n && up(At(k));
    }
  }

  lemma AtNext(k: nat)
    requires k > 0
    ensures At(k) == At(k - 1) + Backoff(k - 1)
  {
  }

  lemma LastAttempt()
    ensures At(ATTEMPTS - 1) == 127
  {
    assert Backoff(4) == 16;
    assert At(5) == 31;
    assert Backoff(7) == 16;
    assert At(8) == 79;
    assert Backoff(10) == 16;
    assert At(11) == 127;
  }

  lemma {:induction false} AttemptsAreOrdered(j: nat, k: nat)
    requires j <= k
    ensures At(j) <= At(k)
  {
    if j < k {
      AttemptsAreOrdered(j, k - 1);
    }
  }

  /** A final report outlasts an outage from the first attempt on exactly when it ends by 127 s. */
  lemma OutageBound(end: nat)
    ensures !Refused((t: nat) => t >= end, ATTEMPTS) <==> end <= 127
  {
    LastAttempt();
    RefusedMeans((t: nat) => t >= end, ATTEMPTS);
    forall k: nat | k < ATTEMPTS ensures At(k) <= 127 {
      AttemptsAreOrdered(k, ATTEMPTS - 1);
    }
  }
}
