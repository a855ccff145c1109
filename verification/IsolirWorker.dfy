/** The isolation block of the worker cycle (internal/job/worker.go): billing status on one side, the
    router secret on the other, either of which may fail at any call. */
module IsolirWorker {
  import opened Options

  type Id = nat

  const REPAIR_INTERVAL: int := 3600

  datatype Status = Active | Suspended | Overdue | Closed

  /** One subscription as billing and its router see it. `isolated`: the secret still looks isolated.
      `suspensions`, `notices` and `resumes` count history: moves into suspended, isolation notices
      queued, resume attempts. */
  datatype Row = Row(status: Status, suspendedAt: bool, hasRouter: bool, isolated: bool,
                     suspensions: nat, notices: nat, resumes: nat)

  /** Whether each call of one suspension goes through; a stopped process is a row of failures. */
  datatype SuspendCalls = SuspendCalls(readOk: bool, statusSaved: bool, isolates: bool, notified: bool)

  /** `restores`: the router did it; `acked`: it also said so. */
  datatype ResumeCalls = ResumeCalls(readOk: bool, restores: bool, acked: bool, statusSaved: bool, flagSaved: bool)

  predicate Honest(c: ResumeCalls) {
    c.acked ==> c.restores
  }

  /** What one cycle sees and meets for one subscription. */
  datatype World = World(pastDue: bool, free: bool, visible: bool, suspend: SuspendCalls, resume: ResumeCalls)

  predicate Live(r: Row) {
    r.status == Active || r.status == Suspended || r.status == Overdue
  }

  // ----- Specification -----

  function Suspend(r: Row, c: SuspendCalls): Row {
    var first := r.status != Suspended;
    if !c.readOk || (first && !c.statusSaved) then r
    else
      var s := if first then r.(status := Suspended, suspendedAt := true, suspensions := r.suspensions + 1) else r;
      var t := if r.hasRouter && c.isolates then s.(isolated := true) else s;
      if first && c.notified then t.(notices := r.notices + 1) else t
  }

  function Resume(r: Row, c: ResumeCalls): Row {
    var tried := r.(resumes := r.resumes + 1);
    if !c.readOk || !r.hasRouter then tried
    else
      var s := if c.restores then tried.(isolated := false) else tried;
      if !c.acked then s
      else
        var t := if r.status != Active && c.statusSaved then s.(status := Active) else s;
        if c.flagSaved then t.(suspendedAt := false) else t
  }

  predicate IsOverdue(r: Row, w: World, listed: bool) {
    listed && Live(r) && w.pastDue && !w.free
  }

  predicate NeedsResume(r: Row, w: World, listed: bool) {
    listed && r.hasRouter && Live(r) && r.suspendedAt && !w.pastDue && !w.free
  }

  predicate LooksForgotten(r: Row, w: World) {
    r.hasRouter && Live(r) && w.visible && !w.free && r.isolated
  }

  /** The row after the three phases of one cycle. */
  function Cycle(r: Row, w: World, overdueListed: bool, resumeListed: bool, repairDue: bool): Row {
    var overdue := IsOverdue(r, w, overdueListed);
    var r1 := if overdue then Suspend(r, w.suspend) else r;
    var tried := NeedsResume(r1, w, resumeListed);
    var r2 := if tried then Resume(r1, w.resume) else r1;
    if repairDue && !overdue && !tried && LooksForgotten(r2, w) then Resume(r2, w.resume) else r2
  }

  // ----- The code -----

  class Worker {
    var rows: map<Id, Row>
    var lastRepairAt: Option<int>

    method SuspendSubscription(id: Id, c: SuspendCalls)
      requires id in rows
      modifies this`rows
      ensures rows == old(rows)[id := Suspend(old(rows)[id], c)]
    {
      if !c.readOk {
        return;
      }
      var sub := rows[id];
      var first := sub.status != Suspended;
      if first {
        if !c.statusSaved {
          return;
        }
        sub := sub.(status := Suspended, suspendedAt := true, suspensions := sub.suspensions + 1);
        rows := rows[id := sub];
      }
      if sub.hasRouter && c.isolates {
        sub := sub.(isolated := true);
        rows := rows[id := sub];
      }
      if !first {
        return;
      }
      if c.notified {
        rows := rows[id := sub.(notices := sub.notices + 1)];
      }
    }

    method ResumeSubscription(id: Id, c: ResumeCalls)
      requires id in rows
      modifies this`rows
      ensures rows == old(rows)[id := Resume(old(rows)[id], c)]
    {
      var sub := rows[id].(resumes := rows[id].resumes + 1);
      rows := rows[id := sub];
      if !c.readOk || !sub.hasRouter {
        return;
      }
      if c.restores {
        sub := sub.(isolated := false);
        rows := rows[id := sub];
      }
      if !c.acked {
        return;
      }
      if sub.status != Active && c.statusSaved {
        sub := sub.(status := Active);
        rows := rows[id := sub];
      }
      if c.flagSaved {
        rows := rows[id := sub.(suspendedAt := false)];
      }
    }

    method SuspendOverdue(world: map<Id, World>, listed: bool) returns (overdue: set<Id>)
      requires rows.Keys <= world.Keys
      modifies this`rows
      ensures rows.Keys == old(rows).Keys
      ensures overdue == set id | id in rows && IsOverdue(old(rows)[id], world[id], listed)
      ensures forall id :: id in rows ==>
                rows[id] == if id in overdue then Suspend(old(rows)[id], world[id].suspend) else old(rows)[id]
    {
      overdue := {};
      if !listed {
        return;
      }
      var todo := set id | id in rows && Live(rows[id]) && world[id].pastDue && !world[id].free;
      ghost var ids := todo;
      while todo != {}
        invariant todo <= ids && overdue == ids - todo && rows.Keys == old(rows).Keys
        invariant forall id :: id in rows ==>
                    rows[id] == if id in overdue then Suspend(old(rows)[id], world[id].suspend) else old(rows)[id]
      {
        var id :| id in todo;
        todo := todo - {id};
        overdue := overdue + {id};
        SuspendSubscription(id, world[id].suspend);
      }
    }

    method ResumePaid(world: map<Id, World>, listed: bool) returns (tried: set<Id>)
      requires rows.Keys <= world.Keys
      modifies this`rows
      ensures rows.Keys == old(rows).Keys
      ensures tried == set id | id in rows && NeedsResume(old(rows)[id], world[id], listed)
      ensures forall id :: id in rows ==>
                rows[id] == if id in tried then Resume(old(rows)[id], world[id].resume) else old(rows)[id]
    {
      tried := {};
      if !listed {
        return;
      }
      var todo := set id | id in rows && rows[id].hasRouter && Live(rows[id]) && rows[id].suspendedAt
                           && !world[id].pastDue;
      ghost var ids := todo;
      while todo != {}
        invariant todo <= ids && rows.Keys == old(rows).Keys
        invariant tried == set id | id in ids - todo && !world[id].free
        invariant forall id :: id in rows ==>
                    rows[id] == if id in tried then Resume(old(rows)[id], world[id].resume) else old(rows)[id]
      {
        var id :| id in todo;
        todo := todo - {id};
        if !world[id].free {
          tried := tried + {id};
          ResumeSubscription(id, world[id].resume);
        }
      }
    }

    /** At most once per hour: resumes whatever still looks isolated and was not handled in this cycle. */
    method RepairSecrets(world: map<Id, World>, overdue: set<Id>, tried: set<Id>, now: int) returns (ran: bool)
      requires rows.Keys <= world.Keys
      modifies this
      ensures rows.Keys == old(rows).Keys
      ensures ran == (old(lastRepairAt).None? || old(lastRepairAt).value + 3600 <= now)
      ensures lastRepairAt == if ran then Some(now) else old(lastRepairAt)
      ensures forall id :: id in rows ==>
                rows[id] == if ran && id !in overdue && id !in tried && LooksForgotten(old(rows)[id], world[id])
                            then Resume(old(rows)[id], world[id].resume) else old(rows)[id]
    {
      if lastRepairAt.Some? && now < lastRepairAt.value + REPAIR_INTERVAL {
        return false;
      }
      lastRepairAt := Some(now);
      ran := true;
      var todo := set id | id in rows && rows[id].hasRouter && Live(rows[id]) && world[id].visible;
      while todo != {}
        invariant todo <= rows.Keys && rows.Keys == old(rows).Keys && lastRepairAt == Some(now)
        invariant forall id :: id in todo ==>
                    rows[id] == old(rows)[id] && rows[id].hasRouter && Live(rows[id]) && world[id].visible
        invariant forall id :: id in rows && id !in todo ==>
                    rows[id] == if id !in overdue && id !in tried && LooksForgotten(old(rows)[id], world[id])
                                then Resume(old(rows)[id], world[id].resume) else old(rows)[id]
      {
        var id :| id in todo;
        todo := todo - {id};
        if id !in overdue && id !in tried && !world[id].free && rows[id].isolated {
          ResumeSubscription(id, world[id].resume);
        }
      }
    }

    /** The whole block: each subscription goes through exactly its own cycle, in whatever order. */
    method RunIsolirBlock(world: map<Id, World>, now: int, overdueListed: bool, resumeListed: bool)
      requires rows.Keys <= world.Keys
      modifies this
      ensures rows.Keys == old(rows).Keys
      ensures var due := old(lastRepairAt).None? || old(lastRepairAt).value + REPAIR_INTERVAL <= now;
              forall id :: id in rows ==> rows[id] == Cycle(old(rows)[id], world[id], overdueListed, resumeListed, due)
    {
      var overdue := SuspendOverdue(world, overdueListed);
      var tried := ResumePaid(world, resumeListed);
      var _ := RepairSecrets(world, overdue, tried, now);
    }
  }

  // ----- Safety over every worker run -----

  datatype Action = Suspending(calls: SuspendCalls) | Resuming(calls': ResumeCalls)

  function Act(r: Row, a: Action): Row {
    match a
    case Suspending(c) => Suspend(r, c)
    case Resuming(c) => Resume(r, c)
  }

  function Run(r: Row, actions: seq<Action>): Row
    decreases |actions|
  {
    if actions == [] then r else Run(Act(r, actions[0]), actions[1..])
  }

  /** A service isolated on its router is suspended in billing; no notice without a suspension. */
  predicate Safe(r: Row) {
    (r.isolated ==> r.status == Suspended) && r.notices <= r.suspensions
  }

  predicate AllHonest(actions: seq<Action>) {
    forall i :: 0 <= i < |actions| && actions[i].Resuming? ==> Honest(actions[i].calls')
  }

  /** Whatever fails and wherever the process stops, nobody is cut off without a suspension on record. */
  lemma {:induction false} IsolatedImpliesSuspended(r: Row, actions: seq<Action>)
    requires Safe(r) && AllHonest(actions)
    ensures Safe(Run(r, actions))
    decreases |actions|
  {
    if actions != [] {
      assert actions[0].Resuming? ==> Honest(actions[0].calls');
      IsolatedImpliesSuspended(Act(r, actions[0]), actions[1..]);
    }
  }

  /** Without lost notices, the notices are exactly the moves into suspended. */
  lemma {:induction false} OneNoticePerSuspension(r: Row, actions: seq<Action>)
    requires r.notices == r.suspensions
    requires forall i :: 0 <= i < |actions| && actions[i].Suspending? ==> actions[i].calls.notified
    ensures Run(r, actions).notices == Run(r, actions).suspensions
    decreases |actions|
  {
    if actions != [] {
      assert actions[0].Suspending? ==> actions[0].calls.notified;
      OneNoticePerSuspension(Act(r, actions[0]), actions[1..]);
    }
  }

  /** A cycle is a run of at most one suspension and at most one resume per subscription. */
  lemma CycleIsARun(r: Row, w: World, overdueListed: bool, resumeListed: bool, repairDue: bool)
    returns (actions: seq<Action>)
    ensures |actions| <= 2 && Run(r, actions) == Cycle(r, w, overdueListed, resumeListed, repairDue)
    ensures Honest(w.resume) ==> AllHonest(actions)
    ensures Cycle(r, w, overdueListed, resumeListed, repairDue).resumes <= r.resumes + 1
  {
    var overdue := IsOverdue(r, w, overdueListed);
    var r1 := if overdue then Suspend(r, w.suspend) else r;
    var resumed := NeedsResume(r1, w, resumeListed) || (repairDue && !overdue && LooksForgotten(r1, w));
    var first, second := [Suspending(w.suspend)], [Resuming(w.resume)];
    actions := (if overdue then first else []) + if resumed then second else [];
    assert first[1..] == [] && second[1..] == [] && (first + second)[1..] == second;
    assert first + [] == first && [] + second == second && second + [] == second;
  }

  // ----- What a cycle without failures achieves -----

  predicate Faultless(w: World) {
    && w.suspend == SuspendCalls(true, true, true, true)
    && w.resume == ResumeCalls(true, true, true, true, true)
    && w.visible
  }

  predicate InService(r: Row) {
    r.status == Active && !r.suspendedAt && !r.isolated
  }

  /** Not active, but with neither the flag nor an isolated secret that would make the worker resume it. */
  predicate Unnoticed(r: Row) {
    r.status != Active && !r.suspendedAt && !r.isolated
  }

  /** Suspended in billing by mistake: on its router the service runs, and no cycle will look at it. */
  predicate Stranded(r: Row) {
    Unnoticed(r) && r.status == Suspended
  }

  /** A faultless cycle with the repair due cuts off every overdue service, puts every other listed, paying
      one on its router without the flag, and makes it active unless nothing makes it noticed; of the
      suspended ones exactly the stranded stay suspended. */
  lemma FaultlessCycle(r: Row, w: World)
    requires Faultless(w) && Live(r) && r.hasRouter && !w.free
    ensures var end := Cycle(r, w, true, true, true);
            && (w.pastDue ==> end.status == Suspended && end.isolated)
            && (!w.pastDue ==> !end.isolated && !end.suspendedAt && (InService(end) <==> !Unnoticed(r)))
            && (!w.pastDue && r.status == Suspended ==> (end.status == Suspended <==> Stranded(r)))
            && (!w.pastDue && (Unnoticed(r) || InService(r)) ==> end == r)
  {
  }

  /** Closed subscriptions and free plans are changed by no cycle, whatever fails in it; nor is a service
      without a router ever isolated or resumed. */
  lemma WhoIsLeftAlone(r: Row, w: World, overdueListed: bool, resumeListed: bool, repairDue: bool)
    ensures r.status == Closed || w.free ==> Cycle(r, w, overdueListed, resumeListed, repairDue) == r
    ensures var end := Cycle(r, w, overdueListed, resumeListed, repairDue);
            !r.hasRouter ==> end.isolated == r.isolated && end.resumes == r.resumes
                             && (r.status == Suspended ==> end == r)
  {
  }

  /** Which services a cycle suspends and which it resumes. A suspension is tried on every listed, paying
      service with a past-due invoice; a resume on every one with a router and without such an invoice that
      carries the flag, or that the hourly repair sees isolated. */
  lemma WhoIsTouched(r: Row, w: World, overdueListed: bool, resumeListed: bool, repairDue: bool)
    ensures var end := Cycle(r, w, overdueListed, resumeListed, repairDue);
            var serving := r.status in {Active, Suspended, Overdue} && !w.free;
            var suspends := overdueListed && serving && w.pastDue;
            var resumes := serving && r.hasRouter && !suspends
              && ((resumeListed && r.suspendedAt && !w.pastDue) || (repairDue && w.visible && r.isolated));
            end == if suspends then Suspend(r, w.suspend) else if resumes then Resume(r, w.resume) else r
  {
    var st := r.status;
    assert st.Active? || st.Suspended? || st.Overdue? || st.Closed?;
  }

  /** What a suspension does: it is on record before the router is asked, the first one is noticed once, and
      asking again isolates again without another notice. */
  lemma WhatASuspensionDoes(r: Row, c: SuspendCalls)
    ensures var end, first := Suspend(r, c), r.status != Suspended;
            && (!c.readOk || (first && !c.statusSaved) ==> end == r)
            && (c.readOk && (first ==> c.statusSaved) ==>
                  && end.status == Suspended
                  && (first ==> end.suspendedAt) && (!first ==> end.suspendedAt == r.suspendedAt)
                  && end.isolated == (r.isolated || (r.hasRouter && c.isolates))
                  && end.notices == r.notices + (if first && c.notified then 1 else 0)
                  && end.suspensions == r.suspensions + (if first then 1 else 0))
            && end.resumes == r.resumes && end.hasRouter == r.hasRouter
  {
  }

  /** What a resume does: nothing in billing unless the router acknowledged it. */
  lemma WhatAResumeDoes(r: Row, c: ResumeCalls)
    ensures var end, done := Resume(r, c), c.readOk && r.hasRouter;
            && end.resumes == r.resumes + 1
            && end.isolated == (r.isolated && !(done && c.restores))
            && end.status == (if done && c.acked && c.statusSaved then Active else r.status)
            && end.suspendedAt == (r.suspendedAt && !(done && c.acked && c.flagSaved))
            && end.notices == r.notices && end.suspensions == r.suspensions
  {
  }

  function Cycles(r: Row, worlds: seq<World>): Row
    decreases |worlds|
  {
    if worlds == [] then r else Cycles(Cycle(r, worlds[0], true, true, true), worlds[1..])
  }

  /** A stranded or otherwise unnoticed row stays as it is through any number of cycles while nothing falls
      overdue. */
  lemma {:induction false} StrandedForEver(r: Row, worlds: seq<World>)
    requires Unnoticed(r) && forall i :: 0 <= i < |worlds| ==> !worlds[i].pastDue
    ensures Cycles(r, worlds) == r
    decreases |worlds|
  {
    if worlds != [] {
      assert !worlds[0].pastDue;
      StrandedForEver(r, worlds[1..]);
    }
  }

  /** A resume strands its row exactly when the router agreed and the flag was cleared although the
      status write had failed. */
  lemma ResumeStrandsIff(r: Row, c: ResumeCalls)
    requires r.status == Suspended && r.suspendedAt && r.hasRouter && c.readOk && Honest(c)
    ensures Stranded(Resume(r, c)) <==> c.acked && c.flagSaved && !c.statusSaved
  {
  }

  /** When the overdue list cannot be read, a repair frees an isolated service that is still overdue;
      with the list it never does. */
  lemma RepairFreesOverdueIff(r: Row, w: World, overdueListed: bool)
    requires Safe(r) && r.isolated && r.hasRouter && Faultless(w) && w.pastDue && !w.free
    ensures Cycle(r, w, overdueListed, true, true).isolated <==> overdueListed
  {
  }
}
