/** What a schedule of parallel creates decides: the reported count, and whether an interrupted adoption can be
    resumed (internal/orch/orchestrator.go:345-464). The conditions are on the events alone. */
module ReconcileSchedules {
  import opened Common
  import opened Names
  import opened Reconcile
  import opened ReconcileLaws
  import opened ReconcileSafety

  // ---- Reading a schedule ----

  /** How the driver answered the create of index i, if it has been called. */
  function Answer(es: seq<Event>, i: nat): Option<Outcome> {
    if es == [] then None
    else
      var earlier, e := Answer(es[..|es| - 1], i), es[|es| - 1];
      if earlier.None? && e.Create? && e.i == i then Some(e.outcome) else earlier
  }

  /** Index i has done its bookkeeping. */
  predicate Returned(es: seq<Event>, i: nat) {
    es != [] &&
    var before, e := es[..|es| - 1], es[|es| - 1];
    Returned(before, i) || (e.Settle? && e.i == i && Answer(before, i).Some?)
  }

  /** The event is the bookkeeping of a goroutine of `missing` whose create was answered. */
  predicate Books(missing: set<nat>, before: seq<Event>, e: Event) {
    e.Settle? && e.i in missing && Answer(before, e.i).Some? && !Returned(before, e.i)
  }

  /** A create or a record has failed. */
  predicate SomeFailed(missing: set<nat>, es: seq<Event>) {
    es != [] &&
    var before, e := es[..|es| - 1], es[|es| - 1];
    SomeFailed(missing, before) || (Books(missing, before, e) && (Answer(before, e.i) != Some(Succeeds) || !e.recorded))
  }

  /** The record of a created VM fails after another failure. */
  predicate LateFailure(missing: set<nat>, before: seq<Event>, e: Event) {
    Books(missing, before, e) && Answer(before, e.i) == Some(Succeeds) && !e.recorded && SomeFailed(missing, before)
  }

  function LateFailures(missing: set<nat>, es: seq<Event>): nat {
    if es == [] then 0
    else LateFailures(missing, es[..|es| - 1]) + if LateFailure(missing, es[..|es| - 1], es[|es| - 1]) then 1 else 0
  }

  lemma {:induction false} NoneLate(missing: set<nat>, es: seq<Event>)
    ensures LateFailures(missing, es) == 0 <==> forall k :: 0 <= k < |es| ==> !LateFailure(missing, es[..k], es[k])
  {
    if es != [] {
      var n := |es| - 1;
      NoneLate(missing, es[..n]);
      forall k | 0 <= k < n
        ensures LateFailure(missing, es[..k], es[k]) == LateFailure(missing, es[..n][..k], es[..n][k])
      {
        assert es[..n][..k] == es[..k];
      }
    }
  }

  /** The task a goroutine is in, read off the schedule. */
  predicate TaskIs(es: seq<Event>, i: nat, t: Task) {
    match t
    case Waiting => Answer(es, i).None? && !Returned(es, i)
    case Created(_) => Answer(es, i) == Some(Succeeds) && !Returned(es, i)
    case Refused => Answer(es, i).Some? && Answer(es, i) != Some(Succeeds) && !Returned(es, i)
    case Settled => Answer(es, i).Some? && Returned(es, i)
  }

  lemma TaskStep(dep: Dep, s: Creating, before: seq<Event>, e: Event, i: nat)
    requires i in s.tasks && TaskIs(before, i, s.tasks[i])
    ensures var t := Step(dep, s, e); i in t.tasks && TaskIs(before + [e], i, t.tasks[i])
  {
    assert (before + [e])[..|before|] == before;
  }

  /** The state's tasks and failure flag are what the schedule says. */
  predicate Reads(missing: set<nat>, es: seq<Event>, s: Creating) {
    && s.tasks.Keys == missing
    && (forall i :: i in missing ==> TaskIs(es, i, s.tasks[i]))
    && s.failed == SomeFailed(missing, es)
  }

  lemma FailureStep(dep: Dep, missing: set<nat>, s: Creating, before: seq<Event>, e: Event)
    requires Reads(missing, before, s)
    ensures Step(dep, s, e).failed == SomeFailed(missing, before + [e])
    ensures Step(dep, s, e).tasks.Keys == missing
  {
    assert (before + [e])[..|before|] == before;
    if e.i in missing {
      assert TaskIs(before, e.i, s.tasks[e.i]);
    }
  }

  lemma {:induction false} ScheduleReads(dep: Dep, w: World, es: seq<Event>)
    ensures Reads(Missing(dep, w), es, PlayCreates(dep, StartCreating(dep, w), es))
  {
    if es != [] {
      var before, e := es[..|es| - 1], es[|es| - 1];
      var s := PlayCreates(dep, StartCreating(dep, w), before);
      ScheduleReads(dep, w, before);
      assert before + [e] == es;
      FailureStep(dep, Missing(dep, w), s, before, e);
      forall i | i in Missing(dep, w) ensures TaskIs(es, i, Step(dep, s, e).tasks[i]) {
        TaskStep(dep, s, before, e, i);
      }
    }
  }

  // ---- The reported count ----

  lemma CountStep(dep: Dep, missing: set<nat>, s: Creating, before: seq<Event>, e: Event)
    requires Reads(missing, before, s)
    ensures var t := Step(dep, s, e);
      && |t.w.recs| >= |s.w.recs|
      && t.created - s.created == |t.w.recs| - |s.w.recs| + if LateFailure(missing, before, e) then 1 else 0
  {
    if e.i in missing {
      assert TaskIs(before, e.i, s.tasks[e.i]);
    }
  }

  lemma {:induction false} CountIsExcess(dep: Dep, w: World, es: seq<Event>)
    ensures var s := PlayCreates(dep, StartCreating(dep, w), es);
      |s.w.recs| >= |w.recs| && s.created == |s.w.recs| - |w.recs| + LateFailures(Missing(dep, w), es)
  {
    if es != [] {
      var before := es[..|es| - 1];
      CountIsExcess(dep, w, before);
      ScheduleReads(dep, w, before);
      CountStep(dep, Missing(dep, w), PlayCreates(dep, StartCreating(dep, w), before), before, es[|es| - 1]);
    }
  }

  /** The reported count exceeds the new records by the records that fail after another failure, so it is the
      number of new records exactly when no record of a created VM fails after another failure. */
  lemma CreatedOvercounts(dep: Dep, w: World, es: seq<Event>)
    ensures var s, missing := PlayCreates(dep, StartCreating(dep, w), es), Missing(dep, w);
      && s.created == |s.w.recs| - |w.recs| + LateFailures(missing, es)
      && (s.created == |s.w.recs| - |w.recs| <==> forall k :: 0 <= k < |es| ==> !LateFailure(missing, es[..k], es[k]))
  {
    CountIsExcess(dep, w, es);
    NoneLate(Missing(dep, w), es);
  }

  lemma PlaySnoc(dep: Dep, s: Creating, es: seq<Event>, e: Event)
    ensures PlayCreates(dep, s, es + [e]) == Step(dep, PlayCreates(dep, s, es), e)
  {
    assert (es + [e])[..|es|] == es;
  }

  /** Two VMs whose creates succeed and whose records both fail: one is reported created, none is recorded. */
  lemma TwoFailedRecordsCountOne(dep: Dep, w: World, i: nat, j: nat)
    requires i in Missing(dep, w) && j in Missing(dep, w) && i != j
    ensures var s := PlayCreates(dep, StartCreating(dep, w),
                                 [Create(i, Succeeds)] + [Create(j, Succeeds)] + [Settle(i, false)] + [Settle(j, false)]);
      s.created == 1 && s.w.recs == w.recs && s.failed
  {
    var s0 := StartCreating(dep, w);
    PlaySnoc(dep, s0, [], Create(i, Succeeds));
    assert [] + [Create(i, Succeeds)] == [Create(i, Succeeds)];
    PlaySnoc(dep, s0, [Create(i, Succeeds)], Create(j, Succeeds));
    PlaySnoc(dep, s0, [Create(i, Succeeds)] + [Create(j, Succeeds)], Settle(i, false));
    PlaySnoc(dep, s0, [Create(i, Succeeds)] + [Create(j, Succeeds)] + [Settle(i, false)], Settle(j, false));
  }

  // ---- Resuming an adoption ----

  /** The driver took over or made the VM of index i, whatever it answered then. */
  predicate Stamped(es: seq<Event>, i: nat) {
    Answer(es, i).Some? && Answer(es, i) != Some(Refuses)
  }

  /** The VMs there at the start are still there under their names; those with a target name are ours exactly as
      far as the schedule has stamped them, and new ones are ours. */
  predicate StampsShow(dep: Dep, w: World, es: seq<Event>, v: World) {
    && w.vms.Keys <= v.vms.Keys
    && (forall r :: r in v.vms && r !in w.vms ==> v.vms[r].owner == dep.id)
    && (forall r :: r in w.vms ==> v.vms[r].name == w.vms[r].name)
    && (forall r, i :: r in w.vms && i in Missing(dep, w) && w.vms[r].name == NameOf(dep, i) ==>
      if Stamped(es, i) then v.vms[r].owner == dep.id else v.vms[r] == w.vms[r])
  }

  /** CreateVM on the one VM of that name. */
  lemma StampsItsVM(dep: Dep, w: World, i: nat)
    requires Inv(dep, w) && i >= 1
    ensures var m := CreateVM(dep, w, NameOf(dep, i));
      && (forall r :: r in w.vms && w.vms[r].name == NameOf(dep, i) ==> m.ref == r)
      && m.w.vms[m.ref].owner == dep.id
      && w.vms.Keys <= m.w.vms.Keys <= w.vms.Keys + {m.ref}
  {
    assert IsTarget(dep, NameOf(dep, i));
    var m := CreateVM(dep, w, NameOf(dep, i));
    forall r | r in w.vms && w.vms[r].name == NameOf(dep, i) ensures m.ref == r {
      assert r < w.next + 1;
    }
  }

  lemma StampedStep(before: seq<Event>, e: Event, i: nat)
    ensures Stamped(before + [e], i) <==>
      Stamped(before, i) || (e.Create? && e.i == i && Answer(before, i).None? && e.outcome != Refuses)
  {
    assert (before + [e])[..|before|] == before;
  }

  lemma StampStep(dep: Dep, w: World, before: seq<Event>, v: World, i: nat, outcome: Outcome)
    requires Inv(dep, v) && StampsShow(dep, w, before, v) && i >= 1 && Answer(before, i).None? && outcome != Refuses
    ensures StampsShow(dep, w, before + [Create(i, outcome)], CreateVM(dep, v, NameOf(dep, i)).w)
  {
    var u := CreateVM(dep, v, NameOf(dep, i)).w;
    CreateKeeps(dep, v, i);
    StampsItsVM(dep, v, i);
    forall r, j | r in w.vms && j in Missing(dep, w) && w.vms[r].name == NameOf(dep, j)
      ensures if Stamped(before + [Create(i, outcome)], j) then u.vms[r].owner == dep.id else u.vms[r] == w.vms[r]
    {
      StampedStep(before, Create(i, outcome), j);
      if j != i {
        VMNameIsInjective(dep.prefix, dep.pad, i, dep.prefix, dep.pad, j);
      }
    }
  }

  /** The event makes the driver carry out a create. */
  predicate CarriesOut(s: Creating, e: Event) {
    e.Create? && e.i in s.tasks && s.tasks[e.i] == Waiting && e.outcome != Refuses
  }

  lemma IdleVMs(dep: Dep, s: Creating, e: Event)
    requires !CarriesOut(s, e)
    ensures Step(dep, s, e).w.vms == s.w.vms
  {
  }

  /** A step that carries out no create leaves the VMs and the stamps alone. */
  lemma IdleStep(dep: Dep, w: World, before: seq<Event>, s: Creating, e: Event)
    requires StampsShow(dep, w, before, s.w) && Reads(Missing(dep, w), before, s) && !CarriesOut(s, e)
    ensures StampsShow(dep, w, before + [e], Step(dep, s, e).w)
  {
    IdleVMs(dep, s, e);
    forall j | j in Missing(dep, w) ensures Stamped(before + [e], j) == Stamped(before, j) {
      StampedStep(before, e, j);
      assert TaskIs(before, j, s.tasks[j]);
    }
  }

  lemma {:induction false} AdoptsKeep(dep: Dep, w: World, es: seq<Event>)
    requires Inv(dep, w)
    ensures StampsShow(dep, w, es, PlayCreates(dep, StartCreating(dep, w), es).w)
  {
    if es != [] {
      var before, e := es[..|es| - 1], es[|es| - 1];
      var s := PlayCreates(dep, StartCreating(dep, w), before);
      AdoptsKeep(dep, w, before);
      ScheduleReads(dep, w, before);
      assert before + [e] == es;
      if CarriesOut(s, e) {
        StartIsFine(dep, w);
        CreatesKeep(dep, StartCreating(dep, w), before);
        assert TaskIs(before, e.i, s.tasks[e.i]);
        StampStep(dep, w, before, s.w, e.i, e.outcome);
      } else {
        IdleStep(dep, w, before, s, e);
      }
    }
  }

  lemma StillRecorded(w: World, v: World)
    requires |v.recs| >= |w.recs| && v.recs[..|w.recs|] == w.recs
    ensures Recorded(w) <= Recorded(v)
  {
    forall k | 0 <= k < |w.recs| ensures w.recs[k].name in Recorded(v) {
      assert v.recs[k] == v.recs[..|w.recs|][k];
    }
  }

  /** The index whose name a VM under an unrecorded target name holds. */
  lemma IndexOf(dep: Dep, w: World, r: nat) returns (i: nat)
    requires r in w.vms && w.vms[r].name in Targets(dep) && w.vms[r].name !in Recorded(w)
    ensures 1 <= i <= dep.count && w.vms[r].name == NameOf(dep, i) && i in Missing(dep, w)
  {
    i :| 1 <= i <= dep.count && w.vms[r].name == NameOf(dep, i);
  }

  /** A conflict that is left is a conflict from before whose create the driver has not carried out. */
  lemma LeftConflict(dep: Dep, w: World, es: seq<Event>, r: nat) returns (i: nat)
    requires Inv(dep, w) && r in Conflicts(dep, PlayCreates(dep, StartCreating(dep, w), es).w)
    ensures r in Conflicts(dep, w) && i in Missing(dep, w) && w.vms[r].name == NameOf(dep, i) && !Stamped(es, i)
  {
    var s := PlayCreates(dep, StartCreating(dep, w), es);
    AdoptsKeep(dep, w, es);
    RecordsGrow(dep, StartCreating(dep, w), es);
    StillRecorded(w, s.w);
    i := IndexOf(dep, s.w, r);
  }

  /** And such a conflict is left: without the driver's answer its VM is not even recorded. */
  lemma StaysConflict(dep: Dep, w: World, es: seq<Event>, r: nat, i: nat)
    requires Inv(dep, w) && r in Conflicts(dep, w) && i in Missing(dep, w) && w.vms[r].name == NameOf(dep, i) && !Stamped(es, i)
    ensures r in Conflicts(dep, PlayCreates(dep, StartCreating(dep, w), es).w)
  {
    AdoptsKeep(dep, w, es);
    UnstampedIsUnrecorded(dep, w, es, i);
  }

  lemma {:induction false} UnstampedIsUnrecorded(dep: Dep, w: World, es: seq<Event>, i: nat)
    requires Inv(dep, w) && i in Missing(dep, w) && Answer(es, i) != Some(Succeeds)
    ensures NameOf(dep, i) !in Recorded(PlayCreates(dep, StartCreating(dep, w), es).w)
  {
    if es != [] {
      var before, e := es[..|es| - 1], es[|es| - 1];
      var s := PlayCreates(dep, StartCreating(dep, w), before);
      UnstampedIsUnrecorded(dep, w, before, i);
      ScheduleReads(dep, w, before);
      UnrecordedStep(dep, s, before, e, i);
    }
  }

  lemma UnrecordedStep(dep: Dep, s: Creating, before: seq<Event>, e: Event, i: nat)
    requires i in s.tasks && TaskIs(before, i, s.tasks[i]) && Answer(before, i) != Some(Succeeds)
    requires NameOf(dep, i) !in Recorded(s.w)
    ensures NameOf(dep, i) !in Recorded(Step(dep, s, e).w)
  {
    if e.Settle? && e.i in s.tasks && s.tasks[e.i].Created? && e.recorded {
      VMNameIsInjective(dep.prefix, dep.pad, i, dep.prefix, dep.pad, e.i);
      RecordedGrows(s.w, Rec(NameOf(dep, e.i), s.tasks[e.i].ref, dep.disks, dep.size));
    } else {
      assert Step(dep, s, e).w.recs == s.w.recs;
      SameNamesSameRecorded(s.w, Step(dep, s, e).w);
    }
  }

  /** Every conflicting VM's create was called and the driver did not refuse it. */
  predicate AllTakenOver(dep: Dep, w: World, es: seq<Event>) {
    forall r, i :: r in Conflicts(dep, w) && i in Missing(dep, w) && w.vms[r].name == NameOf(dep, i) ==> Stamped(es, i)
  }

  /** An adopting pass cut short anywhere, after any answers of the driver, is resumed in abort mode. The resumption
      gets past the conflicts exactly when every conflicting VM's create was called and not refused by the driver;
      otherwise it fails and changes nothing. */
  lemma ResumeAfterAdopt(dep: Dep, w: World, es: seq<Event>, luck: Luck)
    requires Inv(dep, w)
    ensures var v := PlayCreates(dep, StartCreating(dep, w), es).w;
      && (Conflicts(dep, v) == {} <==> AllTakenOver(dep, w, es))
      && (Conflicts(dep, v) != {} ==> Pass(dep, Abort, luck, v) == Grown(v, false))
  {
    var v := PlayCreates(dep, StartCreating(dep, w), es).w;
    if Conflicts(dep, v) != {} {
      var r :| r in Conflicts(dep, v);
      var i := LeftConflict(dep, w, es, r);
    } else {
      forall r, i | r in Conflicts(dep, w) && i in Missing(dep, w) && w.vms[r].name == NameOf(dep, i) ensures Stamped(es, i) {
        if !Stamped(es, i) {
          StaysConflict(dep, w, es, r, i);
        }
      }
    }
  }

  // ---- An interrupted adoption that cannot be resumed ----

  /** One VM to deploy, and a stranger under its name. */
  function Stranded(dep: Dep): World {
    World(map[1 := HvVM(NameOf(dep, 1), "stranger", [])], 1, 0, [])
  }

  /** The adoption is cut short before its first create. Resumed, it fails and changes nothing, whatever its luck. */
  lemma AdoptionCanStrand(dep: Dep, luck: Luck)
    requires dep.count == 1 && dep.id != "stranger"
    ensures var w := Stranded(dep);
      && Inv(dep, w) && Conflicts(dep, w) == {1}
      && Pass(dep, Adopt, luck.(events := []), w) == Grown(w, false)
      && Pass(dep, Abort, luck, w) == Grown(w, false)
  {
    var w := Stranded(dep);
    assert 1 in Missing(dep, w);
    assert NameOf(dep, 1) in Targets(dep);
    var s := StartCreating(dep, w);
    assert s.tasks[1] == Waiting;
    assert PlayCreates(dep, s, []) == s;
    AbortTouchesNothing(dep, luck, w);
  }

  /** The same adoption without the interruption succeeds. */
  lemma AdoptionWouldSucceed(dep: Dep, grow: nat -> GrowFault)
    requires dep.count == 1 && dep.id != "stranger" && forall k :: grow(k) == NoGrowFault
    ensures Pass(dep, Adopt, Luck(None, [Create(1, Succeeds)] + [Settle(1, true)], grow), Stranded(dep)).ok
  {
    var w, luck := Stranded(dep), Luck(None, [Create(1, Succeeds)] + [Settle(1, true)], grow);
    AdoptionCanStrand(dep, luck);
    var s := StartCreating(dep, w);
    assert s.tasks == map[1 := Waiting] by {
      assert 1 in Missing(dep, w);
    }
    PlaySnoc(dep, s, [], Create(1, Succeeds));
    assert [] + [Create(1, Succeeds)] == [Create(1, Succeeds)];
    PlaySnoc(dep, s, [Create(1, Succeeds)], Settle(1, true));
    GoodPassSucceeds(dep, Adopt, luck, w);
  }
}
