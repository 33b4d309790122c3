/** The parallelism gate's other side: a free slot is given out (internal/orch/fill.go:417-432). */
module FillSlots {
  import opened Common
  import opened FillRows
  import opened FillMonitor
  import opened FillRun
  import opened FillEnd

  /** A pending request past the check gets no work order exactly when there is a cap and as many VMs of its run work. */
  lemma RefusedExactly(c: Config, s: State, req: nat)
    requires req in s.requests && s.requests[req].stage == Checked
    requires s.requests[req].snap.run.Some? && s.requests[req].snap.status == Pending
    ensures var run, t := s.requests[req].snap.run.value, Apply(c, s, Grant(req));
      t.handed == s.handed <==> c.spec.maxParallel > 0 && Count(s.rows, run, Working) >= c.spec.maxParallel
  {
    assert |Apply(c, s, Grant(req)).handed| <= |s.handed| + 1;
  }

  /** A number no request in flight has. */
  lemma FreshRequest(requests: map<nat, Request>) returns (q: nat)
    ensures q !in requests
  {
    q := Above(requests.Keys);
  }

  lemma {:induction false} Above(used: set<nat>) returns (q: nat)
    ensures forall u :: u in used ==> u < q
  {
    if used == {} {
      q := 0;
    } else {
      var u :| u in used;
      var r := Above(used - {u});
      q := if r <= u then u + 1 else r;
      forall x | x in used ensures x < q {
        assert x == u || x in used - {u};
      }
    }
  }

  /** A running run's pending VM, and room for it. */
  predicate MayWork(c: Config, s: State, run: nat, v: nat) {
    && v < |s.rows| && Is(s.rows[v], run, Pending)
    && run < |s.runs| && s.runs[run] == Running
    && (c.spec.maxParallel == 0 || Count(s.rows, run, Working) < c.spec.maxParallel)
  }

  /** The VM's agent asks: its row is touched, and its request passes the check. */
  lemma Ask(c: Config, s: State, run: nat, v: nat, q: nat)
    requires MayWork(c, s, run, v) && q !in s.requests
    ensures var t := Apply(c, Apply(c, Apply(c, s, Auth(q, v)), Touch(q)), Check(q));
      && t.rows == s.rows[v := s.rows[v].(seen := Some(s.now))] && t.runs == s.runs && t.now == s.now
      && q in t.requests && t.requests[q] == Request(v, s.rows[v], Checked)
  {
    var a := Apply(c, s, Auth(q, v));
    assert a == s.(requests := s.requests[q := Request(v, s.rows[v], Read)]);
    var b := Apply(c, a, Touch(q));
    assert b.requests[q] == Request(v, s.rows[v], Touched) && b.runs == s.runs;
  }

  lemma Answer(c: Config, t: State, run: nat, v: nat, q: nat)
    requires MayWork(c, t, run, v)
    requires q in t.requests && t.requests[q].vm == v && t.requests[q].stage == Checked
    requires Is(t.requests[q].snap, run, Pending)
    ensures var u := Apply(c, t, Grant(q));
      u.rows == t.rows[v := t.rows[v].(status := Working)] && u.runs == t.runs && u.now == t.now
  {
  }

  lemma RunFour(c: Config, s: State, w: Event, x: Event, y: Event, z: Event)
    ensures Run(c, s, [w] + [x] + [y] + [z]) == Apply(c, Apply(c, Apply(c, Apply(c, s, w), x), y), z)
  {
    RunSnoc(c, s, [], w);
    assert [] + [w] == [w];
    RunSnoc(c, s, [w], x);
    RunSnoc(c, s, [w] + [x], y);
    RunSnoc(c, s, [w] + [x] + [y], z);
  }

  /** The VM's agent asks and is served. */
  lemma Serve(c: Config, s: State, run: nat, v: nat) returns (later: seq<Event>)
    requires MayWork(c, s, run, v)
    ensures var t := Run(c, s, later);
      && t.rows == s.rows[v := s.rows[v].(seen := Some(s.now), status := Working)]
      && t.runs == s.runs && t.now == s.now
  {
    var q := FreshRequest(s.requests);
    Ask(c, s, run, v, q);
    var t := Apply(c, Apply(c, Apply(c, s, Auth(q, v)), Touch(q)), Check(q));
    CountUpdate(s.rows, v, s.rows[v].(seen := Some(s.now)), run, Working);
    Answer(c, t, run, v, q);
    RunFour(c, s, Auth(q, v), Touch(q), Check(q), Grant(q));
    later := [Auth(q, v)] + [Touch(q)] + [Check(q)] + [Grant(q)];
  }

  /** The first `n` VMs of a run work, the others are still pending. */
  predicate FirstWork(s: State, run: nat, n: nat) {
    && n <= |s.rows| && run < |s.runs| && s.runs[run] == Running
    && (forall v :: 0 <= v < n ==> Is(s.rows[v], run, Working))
    && forall v :: n <= v < |s.rows| ==> Is(s.rows[v], run, Pending)
  }

  lemma {:induction false} FirstCount(rows: seq<Row>, run: nat, n: nat)
    requires n <= |rows|
    requires (forall v :: 0 <= v < n ==> Is(rows[v], run, Working)) && forall v :: n <= v < |rows| ==> Is(rows[v], run, Pending)
    ensures Count(rows, run, Working) == n
  {
    if |rows| > n {
      FirstCount(rows[..|rows| - 1], run, n);
    } else {
      CountExtremes(rows, run, Working);
    }
  }

  lemma {:induction false} ServeFirst(c: Config, s: State, run: nat, n: nat) returns (later: seq<Event>)
    requires FirstWork(s, run, 0) && n <= |s.rows| && (c.spec.maxParallel == 0 || n <= c.spec.maxParallel)
    ensures FirstWork(Run(c, s, later), run, n)
  {
    if n == 0 {
      later := [];
    } else {
      var init := ServeFirst(c, s, run, n - 1);
      var t := Run(c, s, init);
      ServeLength(c, s, init);
      FirstCount(t.rows, run, n - 1);
      var last := Serve(c, t, run, n - 1);
      RunConcat(c, s, init, last);
      later := init + last;
    }
  }

  lemma {:induction false} ServeLength(c: Config, s: State, later: seq<Event>)
    ensures |Run(c, s, later).rows| >= |s.rows|
  {
    if later != [] {
      ServeLength(c, s, later[..|later| - 1]);
    }
  }

  /** Every number of VMs up to the cap and the fleet can work at once: some history from the opening of a fill run
      reaches it. */
  lemma CapIsReached(c: Config, es: seq<Event>, power: seq<bool>, n: nat) returns (later: seq<Event>)
    requires var s := Run(c, INITIAL, es); s.phase.Idle? && s.rows != [] && n <= |s.rows|
    requires c.spec.maxParallel == 0 || n <= c.spec.maxParallel
    ensures var s := Run(c, INITIAL, es);
      Count(Run(c, INITIAL, es + [StartFill] + [Open(true, power)] + later).rows, |s.runs|, Working) == n
  {
    var s := Run(c, INITIAL, es);
    RunSnoc(c, INITIAL, es, StartFill);
    RunSnoc(c, INITIAL, es + [StartFill], Open(true, power));
    var start := es + [StartFill] + [Open(true, power)];
    var t := Run(c, INITIAL, start);
    assert t.rows == AssignAll(s.rows, |s.runs|, c.target);
    assert FirstWork(t, |s.runs|, 0);
    later := ServeFirst(c, t, |s.runs|, n);
    RunConcat(c, INITIAL, start, later);
    FirstCount(Run(c, t, later).rows, |s.runs|, n);
  }
}
