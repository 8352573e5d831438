/** When every message is delivered once: each step is dispatched at most once,
    exactly when its dependencies are done, and the messages run out. */
module FulfillmentCompletion {
  import opened Digraph
  import opened FulfillmentProtocol

  // ----- dependency graphs -----

  ghost function DependencyEdges(steps: seq<PlanStep>): set<(StepId, StepId)> {
    set s, d | s in steps && d in s.dependsOn :: (d, s.id)
  }

  ghost predicate HasUnknown(steps: seq<PlanStep>, s: PlanStep) {
    exists d :: d in s.dependsOn && d !in StepIds(steps)
  }

  ghost predicate RepeatsADependency(s: PlanStep) {
    !Distinct(s.dependsOn)
  }

  /** A step with an unknown dependency can never start: it might as well wait
      for itself. */
  ghost function StallEdges(steps: seq<PlanStep>): set<(StepId, StepId)> {
    DependencyEdges(steps) + set s | s in steps && HasUnknown(steps, s) :: (s.id, s.id)
  }

  ghost predicate KnownDependencies(steps: seq<PlanStep>) {
    forall s | s in steps :: !HasUnknown(steps, s)
  }

  ghost predicate NoRepeats(steps: seq<PlanStep>) {
    forall s | s in steps :: !RepeatsADependency(s)
  }

  // ----- histories that deliver every message once -----

  /** Planned once; then each message is delivered once, in any order. */
  ghost predicate Orderly(acts: seq<PlanAction>) {
    && acts != []
    && forall i | 0 <= i < |acts| :: if i == 0 then acts[i].PlanIt? else acts[i].Deliver? || acts[i].Finalize?
  }

  function Sends(log: seq<Happening>, id: StepId): nat {
    multiset(log)[Sent(id)]
  }

  function FinishOrder(log: seq<Happening>): seq<StepId> {
    if log == [] then [] else
      FinishOrder(log[..|log| - 1]) + if log[|log| - 1].Finished? then [log[|log| - 1].id] else []
  }

  /** Between deliveries: a step's dispatch count, its message and its status
      agree, and it has been dispatched exactly when its dependencies are done. */
  ghost predicate InStep(p: PlanState, s: PlanStep) {
    && s.status in {StepPending, StepDone}
    && p.inFlight[s.id] + (if s.status == StepDone then 1 else 0) == Sends(p.log, s.id) <= 1
    && (Sends(p.log, s.id) == 1 <==> DepsMet(p.steps, s))
  }

  /** The steps finished so far, in order, respect every dependency. */
  ghost predicate FinishedInOrder(p: PlanState) {
    && Distinct(FinishOrder(p.log)) && Elements(FinishOrder(p.log)) == DoneSet(p.steps)
    && PredecessorsFirst(StallEdges(p.steps), FinishOrder(p.log))
  }

  ghost predicate Exact(p: PlanState) {
    && Distinct(StepIds(p.steps))
    && (forall s | s in p.steps :: InStep(p, s))
    && (forall id | id in p.inFlight :: id in StepIds(p.steps))
    && FinishedInOrder(p)
  }

  // ----- counting messages -----

  lemma {:induction false} SendsAfterSend(log: seq<Happening>, ids: seq<StepId>, id: StepId)
    ensures Sends(log + SentAll(ids), id) == Sends(log, id) + multiset(ids)[id]
  {
    if ids == [] {
      assert log + SentAll(ids) == log;
    } else {
      var front, last := ids[..|ids| - 1], ids[|ids| - 1];
      SendsAfterSend(log, front, id);
      assert log + SentAll(ids) == log + SentAll(front) + [Sent(last)];
      assert ids == front + [last];
    }
  }

  lemma {:induction false} SendsAfterFinish(log: seq<Happening>, done: StepId, id: StepId)
    ensures Sends(log + [Finished(done)], id) == Sends(log, id)
  {
  }

  lemma {:induction false} FinishOrderAfterSend(log: seq<Happening>, ids: seq<StepId>)
    ensures FinishOrder(log + SentAll(ids)) == FinishOrder(log)
  {
    if ids == [] {
      assert log + SentAll(ids) == log;
    } else {
      var front, last := ids[..|ids| - 1], ids[|ids| - 1];
      FinishOrderAfterSend(log, front);
      assert log + SentAll(ids) == log + SentAll(front) + [Sent(last)];
      assert (log + SentAll(front) + [Sent(last)])[..|log + SentAll(front)|] == log + SentAll(front);
    }
  }

  lemma {:induction false} FinishOrderAfterFinish(log: seq<Happening>, id: StepId)
    ensures FinishOrder(log + [Finished(id)]) == FinishOrder(log) + [id]
  {
    assert (log + [Finished(id)])[..|log|] == log;
  }

  lemma {:induction false} DistinctCounts<T>(s: seq<T>, x: T)
    requires Distinct(s)
    ensures multiset(s)[x] == if x in s then 1 else 0
  {
    if s != [] {
      var front := s[..|s| - 1];
      assert s == front + [s[|s| - 1]];
      DistinctCounts(front, x);
    }
  }

  // ----- the two actions -----

  lemma {:induction false} UniqueStep(steps: seq<PlanStep>, a: PlanStep, b: PlanStep)
    requires Distinct(StepIds(steps)) && a in steps && b in steps && a.id == b.id
    ensures a == b
  {
    var i :| 0 <= i < |steps| && steps[i] == a;
    var j :| 0 <= j < |steps| && steps[j] == b;
    assert StepIds(steps)[i] == StepIds(steps)[j];
  }

  /** Dispatching what a rule selects, one step at a time. */
  lemma {:induction false} SelectCount(rule: Rule, steps: seq<PlanStep>, s: PlanStep)
    requires Distinct(StepIds(steps)) && s in steps
    ensures multiset(SelectAll(rule, steps))[s.id] == if Selected(rule, steps, s) then 1 else 0
  {
    SelectOnce(rule, steps, |steps|);
    DistinctCounts(SelectAll(rule, steps), s.id);
    SelectMembers(rule, steps, |steps|, s.id);
    if i :| 0 <= i < |steps| && steps[i].id == s.id && Selected(rule, steps, steps[i]) {
      UniqueStep(steps, s, steps[i]);
    }
  }

  lemma {:induction false} SelectedAreSteps(rule: Rule, steps: seq<PlanStep>)
    ensures forall id | id in SelectAll(rule, steps) :: id in StepIds(steps)
  {
    forall id | id in SelectAll(rule, steps) ensures id in StepIds(steps) {
      SelectMembers(rule, steps, |steps|, id);
      var i :| 0 <= i < |steps| && steps[i].id == id && Selected(rule, steps, steps[i]);
      assert StepIds(steps)[i] == id;
    }
  }

  lemma {:induction false} RootInStep(p: PlanState, plan: seq<PlanStep>, s: PlanStep)
    requires FreshPlan(p) && ValidPlan(plan) && s in plan
    ensures InStep(PlanNext(p, PlanIt(plan)), s)
  {
    var roots := SelectAll(RootRule, plan);
    var r := PlanNext(p, PlanIt(plan));
    SelectCount(RootRule, plan, s);
    SendsAfterSend([PlanStored], roots, s.id);
    assert r.log == [PlanStored] + SentAll(roots);
    assert s.dependsOn != [] ==> s.dependsOn[0] !in DoneSet(r.steps);
  }

  lemma {:induction false} RootsFinishNothing(p: PlanState, plan: seq<PlanStep>)
    requires FreshPlan(p) && ValidPlan(plan)
    ensures FinishedInOrder(PlanNext(p, PlanIt(plan)))
  {
    var roots := SelectAll(RootRule, plan);
    FinishOrderAfterSend([PlanStored], roots);
    assert PlanNext(p, PlanIt(plan)).log == [PlanStored] + SentAll(roots);
    assert [PlanStored][..0] == [];
    assert DoneSet(plan) == {} == Elements<StepId>([]);
  }

  lemma {:induction false} PlanItIsExact(p: PlanState, plan: seq<PlanStep>)
    requires FreshPlan(p) && ValidPlan(plan)
    ensures Exact(PlanNext(p, PlanIt(plan)))
  {
    forall s | s in plan ensures InStep(PlanNext(p, PlanIt(plan)), s) {
      RootInStep(p, plan, s);
    }
    SelectedAreSteps(RootRule, plan);
    RootsFinishNothing(p, plan);
  }

  lemma {:induction false} DoneAfterMark(steps: seq<PlanStep>, id: StepId)
    requires id in StepIds(steps)
    ensures DoneSet(MarkStep(steps, id, StepDone)) == DoneSet(steps) + {id}
  {
    var marked := MarkStep(steps, id, StepDone);
    var k :| 0 <= k < |steps| && StepIds(steps)[k] == id;
    assert marked[k] in marked && marked[k].status == StepDone;
    forall d | d in DoneSet(steps) ensures d in DoneSet(marked) {
      var i :| 0 <= i < |steps| && steps[i].status == StepDone && steps[i].id == d;
      assert marked[i] in marked;
    }
    forall d | d in DoneSet(marked) ensures d in DoneSet(steps) + {id} {
      var i :| 0 <= i < |steps| && marked[i].status == StepDone && marked[i].id == d;
      assert steps[i] in steps;
    }
  }

  lemma {:induction false} SameShapeEdges(a: seq<PlanStep>, b: seq<PlanStep>)
    requires SameShape(a, b)
    ensures StallEdges(a) <= StallEdges(b)
    ensures DependencyEdges(a) <= DependencyEdges(b)
    ensures KnownDependencies(b) ==> KnownDependencies(a)
    ensures NoRepeats(b) ==> NoRepeats(a)
  {
    SameShapeIds(a, b);
    forall s | s in a ensures exists r :: r in b && r.id == s.id && r.dependsOn == s.dependsOn {
      var i :| 0 <= i < |a| && a[i] == s;
      assert b[i] in b;
    }
    forall s | s in a && HasUnknown(a, s) ensures exists r :: r in b && r.id == s.id && HasUnknown(b, r) {
      var r :| r in b && r.id == s.id && r.dependsOn == s.dependsOn;
      assert HasUnknown(b, r);
    }
    forall e | e in StallEdges(a) ensures e in StallEdges(b) {
      if s :| s in a && HasUnknown(a, s) && e == (s.id, s.id) {
        var r :| r in b && r.id == s.id && HasUnknown(b, r);
      }
    }
  }

  /** The step a delivered message is about is pending and free to finish. */
  lemma {:induction false} DeliveredIsReady(p: PlanState, s: PlanStep)
    requires Exact(p) && s in p.steps && s.id in p.inFlight
    ensures s.status == StepPending && DepsMet(p.steps, s) && p.inFlight[s.id] == 1
    ensures s.id !in DoneSet(p.steps)
    ensures forall e | e in StallEdges(p.steps) && e.1 == s.id :: e.0 in DoneSet(p.steps)
  {
    assert InStep(p, s);
    forall r | r in p.steps && r.id == s.id ensures r == s {
      UniqueStep(p.steps, r, s);
    }
    forall e | e in StallEdges(p.steps) && e.1 == s.id ensures e.0 in DoneSet(p.steps) {
      var r :| r in p.steps && r.id == s.id && (e.0 in r.dependsOn || HasUnknown(p.steps, r));
      UniqueStep(p.steps, r, s);
      DoneAreSteps(p.steps);
      assert forall d | d in s.dependsOn :: d in DoneSet(p.steps);
    }
  }

  lemma {:induction false} DoneAreSteps(steps: seq<PlanStep>)
    ensures forall d | d in DoneSet(steps) :: d in StepIds(steps)
  {
    forall d | d in DoneSet(steps) ensures d in StepIds(steps) {
      var i :| 0 <= i < |steps| && steps[i].status == StepDone && steps[i].id == d;
      assert StepIds(steps)[i] == d;
    }
  }

  /** How one delivery moves the dependencies of step i. */
  lemma {:induction false} DeliveredStep(p: PlanState, id: StepId, i: nat)
    requires Exact(p) && id in p.inFlight && i < |p.steps|
    requires id !in DoneSet(p.steps)
    requires DoneSet(MarkStep(p.steps, id, StepDone)) == DoneSet(p.steps) + {id}
    ensures var marked := MarkStep(p.steps, id, StepDone);
            DepsMet(marked, marked[i]) <==> DepsMet(p.steps, p.steps[i]) || Selected(UnlockedBy(id), marked, marked[i])
    ensures var marked := MarkStep(p.steps, id, StepDone);
            DepsMet(p.steps, p.steps[i]) ==> !Selected(UnlockedBy(id), marked, marked[i])
  {
    var marked := MarkStep(p.steps, id, StepDone);
    assert marked[i].dependsOn == p.steps[i].dependsOn;
    if id in p.steps[i].dependsOn {
      var k :| 0 <= k < |p.steps[i].dependsOn| && p.steps[i].dependsOn[k] == id;
      assert !DepsMet(p.steps, p.steps[i]);
    } else {
      assert forall k | 0 <= k < |p.steps[i].dependsOn| :: p.steps[i].dependsOn[k] != id;
    }
  }

  lemma {:induction false} DeliveredInStep(p: PlanState, id: StepId, i: nat)
    requires Exact(p) && id in p.inFlight && id in StepIds(p.steps) && i < |p.steps|
    requires p.inFlight[id] == 1 && id !in DoneSet(p.steps)
    requires DoneSet(MarkStep(p.steps, id, StepDone)) == DoneSet(p.steps) + {id}
    ensures var q := PlanNext(p, Deliver(id)); i < |q.steps| && InStep(q, q.steps[i])
  {
    var marked := MarkStep(p.steps, id, StepDone);
    var unlocked := SelectAll(UnlockedBy(id), marked);
    assert InStep(p, p.steps[i]);
    SameShapeIds(p.steps, marked);
    SelectCount(UnlockedBy(id), marked, marked[i]);
    SendsAfterFinish(p.log, id, p.steps[i].id);
    SendsAfterSend(p.log + [Finished(id)], unlocked, p.steps[i].id);
    DeliveredStep(p, id, i);
    assert p.steps[i].status == StepDone ==> p.steps[i].id in DoneSet(p.steps);
  }

  lemma {:induction false} DeliverFinishesInOrder(p: PlanState, id: StepId)
    requires FinishedInOrder(p) && id in StepIds(p.steps) && id !in DoneSet(p.steps)
    requires forall e | e in StallEdges(p.steps) && e.1 == id :: e.0 in DoneSet(p.steps)
    ensures FinishedInOrder(PlanNext(p, Deliver(id)))
  {
    var marked := MarkStep(p.steps, id, StepDone);
    OrderAfterDelivery(p, id);
    DoneAfterMark(p.steps, id);
    SameShapeSameGraph(p.steps, marked);
    OneMoreInOrder(StallEdges(p.steps), FinishOrder(p.log), DoneSet(p.steps), id);
  }

  lemma {:induction false} OrderAfterDelivery(p: PlanState, id: StepId)
    ensures FinishOrder(PlanNext(p, Deliver(id)).log) == FinishOrder(p.log) + [id]
  {
    var unlocked := SelectAll(UnlockedBy(id), MarkStep(p.steps, id, StepDone));
    assert PlanNext(p, Deliver(id)).log == p.log + [Finished(id)] + SentAll(unlocked);
    FinishOrderAfterSend(p.log + [Finished(id)], unlocked);
    FinishOrderAfterFinish(p.log, id);
  }

  lemma {:induction false} OneMoreInOrder(edges: set<(StepId, StepId)>, order: seq<StepId>, done: set<StepId>,
                                          id: StepId)
    requires Distinct(order) && Elements(order) == done && PredecessorsFirst(edges, order)
    requires id !in done && forall e | e in edges && e.1 == id :: e.0 in done
    ensures Distinct(order + [id]) && Elements(order + [id]) == done + {id} && PredecessorsFirst(edges, order + [id])
  {
    assert forall x :: x in order <==> x in Elements(order);
    AppendListed(edges, order, id);
  }

  lemma {:induction false} DeliverIsExact(p: PlanState, id: StepId)
    requires Exact(p) && id in p.inFlight
    ensures Exact(PlanNext(p, Deliver(id)))
  {
    DeliveredIsReady(p, StepNamed(p.steps, id));
    DeliverKeepsSteps(p, id);
    DeliverFinishesInOrder(p, id);
    DeliverKeepsIds(p, id);
  }

  lemma {:induction false} DeliverKeepsIds(p: PlanState, id: StepId)
    requires forall x | x in p.inFlight :: x in StepIds(p.steps)
    ensures var q := PlanNext(p, Deliver(id));
            StepIds(q.steps) == StepIds(p.steps) && forall x | x in q.inFlight :: x in StepIds(q.steps)
  {
    var marked := MarkStep(p.steps, id, StepDone);
    SameShapeIds(p.steps, marked);
    SelectedAreSteps(UnlockedBy(id), marked);
  }

  lemma {:induction false} DeliverKeepsSteps(p: PlanState, id: StepId)
    requires Exact(p) && id in p.inFlight && p.inFlight[id] == 1 && id !in DoneSet(p.steps)
    ensures var q := PlanNext(p, Deliver(id)); forall s | s in q.steps :: InStep(q, s)
  {
    var q := PlanNext(p, Deliver(id));
    assert id in StepIds(p.steps);
    DoneAfterMark(p.steps, id);
    forall s | s in q.steps ensures InStep(q, s) {
      var i :| 0 <= i < |q.steps| && q.steps[i] == s;
      DeliveredInStep(p, id, i);
    }
  }

  // ----- every orderly history -----

  lemma {:induction false} OrderlyFront(acts: seq<PlanAction>)
    requires Orderly(acts) && |acts| > 1
    ensures Orderly(acts[..|acts| - 1]) && acts[..|acts| - 1][0] == acts[0]
    ensures acts[|acts| - 1].Deliver? || acts[|acts| - 1].Finalize?
  {
  }

  lemma {:induction false} FinalizeIsExact(p: PlanState)
    requires Exact(p)
    ensures Exact(PlanNext(p, Finalize))
  {
  }

  lemma {:induction false} OrderlyIsExact(origin: PlanState, acts: seq<PlanAction>)
    requires PlanHistory(origin, acts) && Orderly(acts)
    ensures Exact(PlanReplay(origin, acts))
  {
    var before, last := acts[..|acts| - 1], acts[|acts| - 1];
    if before == [] {
      PlanItIsExact(origin, last.plan);
    } else {
      OrderlyFront(acts);
      OrderlyIsExact(origin, before);
      if last.Deliver? {
        DeliverIsExact(PlanReplay(origin, before), last.id);
      } else {
        FinalizeIsExact(PlanReplay(origin, before));
      }
    }
  }

  /** A step is dispatched at most once, and has been dispatched exactly when all
      its dependencies are done. */
  lemma {:induction false} DispatchedOnceWhenUnlocked(origin: PlanState, acts: seq<PlanAction>, p: PlanState,
                                                      s: PlanStep)
    requires PlanHistory(origin, acts) && Orderly(acts) && p == PlanReplay(origin, acts)
    requires s in p.steps
    ensures Sends(p.log, s.id) <= 1
    ensures Sends(p.log, s.id) == 1 <==> DepsMet(p.steps, s)
  {
    OrderlyIsExact(origin, acts);
    assert InStep(p, s);
  }

  lemma {:induction false} SameShapeSameGraph(a: seq<PlanStep>, b: seq<PlanStep>)
    requires SameShape(a, b)
    ensures StepIds(a) == StepIds(b) && StallEdges(a) == StallEdges(b)
  {
    SameShapeIds(a, b);
    SameShapeEdges(a, b);
    SameShapeFlips(a, b);
    SameShapeEdges(b, a);
    EachWay(StallEdges(a), StallEdges(b));
  }

  lemma {:induction false} SameShapeFlips(a: seq<PlanStep>, b: seq<PlanStep>)
    requires SameShape(a, b)
    ensures SameShape(b, a)
  {
  }

  lemma {:induction false} EachWay<T>(a: set<T>, b: set<T>)
    requires a <= b && b <= a
    ensures a == b
  {
  }

  lemma {:induction false} DoneById(steps: seq<PlanStep>, s: PlanStep)
    requires Distinct(StepIds(steps)) && s in steps
    ensures s.id in DoneSet(steps) <==> s.status == StepDone
  {
    if s.id in DoneSet(steps) {
      var r :| r in steps && r.status == StepDone && r.id == s.id;
      UniqueStep(steps, r, s);
    }
  }

  // ----- and the messages run out -----

  function Deliveries(acts: seq<PlanAction>): nat {
    if acts == [] then 0 else
      Deliveries(acts[..|acts| - 1]) + if acts[|acts| - 1].Deliver? then 1 else 0
  }

  lemma {:induction false} DeliveriesFinish(origin: PlanState, acts: seq<PlanAction>)
    requires PlanHistory(origin, acts) && Orderly(acts)
    ensures Deliveries(acts) == |FinishOrder(PlanReplay(origin, acts).log)|
  {
    var before, last := acts[..|acts| - 1], acts[|acts| - 1];
    if before == [] {
      assert acts[0].PlanIt? && PlanReplay(origin, before) == origin;
      RootsFinishNothing(origin, acts[0].plan);
      DistinctSize(FinishOrder(PlanReplay(origin, acts).log));
      assert DoneSet(acts[0].plan) == {};
    } else {
      OrderlyFront(acts);
      DeliveriesFinish(origin, before);
      if last.Deliver? {
        OrderAfterDelivery(PlanReplay(origin, before), last.id);
      }
    }
  }

  /** An orderly history holds at most one delivery per step, and when it holds as
      many as there are steps nothing is in flight.  So delivering messages comes
      to an end, and does so with nothing in flight. */
  lemma {:induction false} DeliveriesRunOut(origin: PlanState, acts: seq<PlanAction>, p: PlanState)
    requires PlanHistory(origin, acts) && Orderly(acts) && p == PlanReplay(origin, acts)
    ensures Deliveries(acts) <= |p.steps|
    ensures Deliveries(acts) == |p.steps| ==> p.inFlight == multiset{}
  {
    DeliveriesFinish(origin, acts);
    OrderlyIsExact(origin, acts);
    FinishedFits(p);
    if Deliveries(acts) == |p.steps| {
      AllDoneIsQuiet(p);
    }
  }

  lemma {:induction false} FinishedFits(p: PlanState)
    requires Exact(p)
    ensures |FinishOrder(p.log)| <= |p.steps|
    ensures |FinishOrder(p.log)| == |p.steps| ==> DoneSet(p.steps) == Elements(StepIds(p.steps))
  {
    DistinctSize(FinishOrder(p.log));
    DistinctSize(StepIds(p.steps));
    DoneAreSteps(p.steps);
    SubsetSize(DoneSet(p.steps), Elements(StepIds(p.steps)));
  }

  lemma {:induction false} AllDoneIsQuiet(p: PlanState)
    requires Exact(p) && DoneSet(p.steps) == Elements(StepIds(p.steps))
    ensures p.inFlight == multiset{}
  {
    forall id ensures p.inFlight[id] == 0 {
      if id in StepIds(p.steps) {
        var s := StepNamed(p.steps, id);
        DoneById(p.steps, s);
        assert id in Elements(StepIds(p.steps));
        assert InStep(p, s);
      }
    }
  }
}
