/** When no message is lost - it may come late, come again, be sent again by a
    resume, or fail part-way and be raised again - a plan gets as far as it can:
    once nothing is in flight exactly the steps that no cycle and no unknown
    dependency holds back are done. */
module FulfillmentRecovery {
  import opened Digraph
  import opened FulfillmentProtocol
  import opened FulfillmentCompletion

  /** Uses a message up only by finishing its step. */
  predicate KeepsMessages(a: PlanAction) {
    match a
    case PlanIt(_) => false
    case FailBeforeDone(_, retryable, copy) => retryable && !copy
    case FailAfter(_, _, retryable, copy) => retryable && !copy
    case _ => true
  }

  /** Planned once; then anything but losing a message.  Orderly histories are
      among these. */
  ghost predicate NothingLost(acts: seq<PlanAction>) {
    acts != [] && acts[0].PlanIt? && forall i | 0 < i < |acts| :: KeepsMessages(acts[i])
  }

  /** The steps that have ever finished, in the order they first did. */
  function FirstFinishes(log: seq<Happening>): seq<StepId> {
    if log == [] then [] else
      var front, last := FirstFinishes(log[..|log| - 1]), log[|log| - 1];
      if last.Finished? && last.id !in front then front + [last.id] else front
  }

  // ----- the invariant -----

  /** A message for id was sent only with all its dependencies finished. */
  ghost predicate SentSoundly(p: PlanState, id: StepId) {
    && id in StepIds(p.steps)
    && forall s, d | s in p.steps && s.id == id && d in s.dependsOn :: d in FirstFinishes(p.log)
  }

  ghost predicate FirstsInOrder(p: PlanState) {
    var firsts := FirstFinishes(p.log);
    && Distinct(firsts) && Elements(firsts) <= Elements(StepIds(p.steps))
    && PredecessorsFirst(StallEdges(p.steps), firsts)
  }

  /** What has finished is done, or about to be so again. */
  ghost predicate Remembered(p: PlanState) {
    && (forall id | id in DoneSet(p.steps) :: id in FirstFinishes(p.log))
    && (forall id | id in FirstFinishes(p.log) :: id in DoneSet(p.steps) || id in p.inFlight)
  }

  ghost predicate MessagesSound(p: PlanState) {
    && (forall id | Sent(id) in p.log :: SentSoundly(p, id))
    && (forall id | id in p.inFlight :: Sent(id) in p.log)
  }

  ghost predicate Steady(p: PlanState) {
    Distinct(StepIds(p.steps)) && FirstsInOrder(p) && Remembered(p) && MessagesSound(p)
  }

  /** Whatever is free to go is done or has a message on the way. */
  ghost predicate Driven(p: PlanState) {
    forall i | 0 <= i < |p.steps| && DepsMet(p.steps, p.steps[i]) ::
      p.steps[i].status == StepDone || p.steps[i].id in p.inFlight
  }

  // ----- first finishes -----

  lemma {:induction false} FirstsAfterFinish(log: seq<Happening>, id: StepId)
    ensures var firsts := FirstFinishes(log);
            FirstFinishes(log + [Finished(id)]) == if id in firsts then firsts else firsts + [id]
  {
    assert (log + [Finished(id)])[..|log|] == log;
  }

  lemma {:induction false} FirstsAfterSend(log: seq<Happening>, ids: seq<StepId>)
    ensures FirstFinishes(log + SentAll(ids)) == FirstFinishes(log)
  {
    if ids == [] {
      assert log + SentAll(ids) == log;
    } else {
      var front, last := ids[..|ids| - 1], ids[|ids| - 1];
      FirstsAfterSend(log, front);
      assert log + SentAll(ids) == log + SentAll(front) + [Sent(last)];
      assert (log + SentAll(front) + [Sent(last)])[..|log + SentAll(front)|] == log + SentAll(front);
    }
  }

  // ----- the building blocks of the actions -----

  lemma {:induction false} SameStepDeps(p: PlanState, q: PlanState, id: StepId)
    requires SentSoundly(p, id) && SameShape(p.steps, q.steps)
    requires forall d | d in FirstFinishes(p.log) :: d in FirstFinishes(q.log)
    ensures SentSoundly(q, id)
  {
    SameShapeIds(p.steps, q.steps);
    forall s, d | s in q.steps && s.id == id && d in s.dependsOn ensures d in FirstFinishes(q.log) {
      var i :| 0 <= i < |q.steps| && q.steps[i] == s;
      assert p.steps[i] in p.steps && p.steps[i].id == id && d in p.steps[i].dependsOn;
    }
  }

  lemma {:induction false} SentIsReady(p: PlanState, id: StepId)
    requires FirstsInOrder(p) && SentSoundly(p, id)
    ensures forall e | e in StallEdges(p.steps) && e.1 == id :: e.0 in FirstFinishes(p.log)
  {
    forall e | e in StallEdges(p.steps) && e.1 == id ensures e.0 in FirstFinishes(p.log) {
      var s :| s in p.steps && s.id == id && (e.0 in s.dependsOn || HasUnknown(p.steps, s));
      SentIsKnown(p, s);
    }
  }

  lemma {:induction false} SentIsKnown(p: PlanState, s: PlanStep)
    requires FirstsInOrder(p) && SentSoundly(p, s.id) && s in p.steps
    ensures !HasUnknown(p.steps, s)
  {
    forall d | d in s.dependsOn ensures d in StepIds(p.steps) {
      assert d in Elements(FirstFinishes(p.log));
    }
  }

  lemma {:induction false} FinishKeepsOrder(p: PlanState, id: StepId)
    requires FirstsInOrder(p) && SentSoundly(p, id)
    ensures FirstsInOrder(Finish(p, id))
  {
    MarkKeepsShape(p.steps, id, StepDone);
    SameShapeSameGraph(p.steps, Finish(p, id).steps);
    FirstsAfterFinish(p.log, id);
    SentIsReady(p, id);
    if id !in FirstFinishes(p.log) {
      AppendListed(StallEdges(p.steps), FirstFinishes(p.log), id);
    }
  }

  lemma {:induction false} FinishSteady(p: PlanState, id: StepId)
    requires Steady(p) && Sent(id) in p.log
    ensures Steady(Finish(p, id)) && id in DoneSet(Finish(p, id).steps)
  {
    var q := Finish(p, id);
    FinishKeepsOrder(p, id);
    MarkKeepsShape(p.steps, id, StepDone);
    SameShapeIds(p.steps, q.steps);
    DoneAfterMark(p.steps, id);
    FirstsAfterFinish(p.log, id);
    forall x | Sent(x) in q.log ensures SentSoundly(q, x) {
      SameStepDeps(p, q, x);
    }
  }

  /** The step named id has all its dependencies done. */
  ghost predicate Free(p: PlanState, id: StepId) {
    id in StepIds(p.steps) && forall s | s in p.steps && s.id == id :: DepsMet(p.steps, s)
  }

  lemma {:induction false} SendSteady(p: PlanState, ids: seq<StepId>)
    requires Steady(p) && forall id | id in ids :: Free(p, id)
    ensures Steady(Send(p, ids))
  {
    var q := Send(p, ids);
    FirstsAfterSend(p.log, ids);
    forall x | Sent(x) in q.log ensures SentSoundly(q, x) {
      if Sent(x) in p.log {
        SameStepDeps(p, q, x);
      } else {
        assert Sent(x) in SentAll(ids);
        FreeIsSound(p, q, x);
      }
    }
    forall x | x in q.inFlight ensures Sent(x) in q.log {
      if x in ids {
        var k :| 0 <= k < |ids| && ids[k] == x;
        assert SentAll(ids)[k] == Sent(x);
      }
    }
  }

  lemma {:induction false} FreeIsSound(p: PlanState, q: PlanState, id: StepId)
    requires Remembered(p) && Free(p, id) && q.steps == p.steps && FirstFinishes(q.log) == FirstFinishes(p.log)
    ensures SentSoundly(q, id)
  {
    forall s, d | s in q.steps && s.id == id && d in s.dependsOn ensures d in FirstFinishes(q.log) {
      var k :| 0 <= k < |s.dependsOn| && s.dependsOn[k] == d;
      assert DepsMet(p.steps, s) && d in DoneSet(p.steps);
    }
  }

  /** Marking a step failed while its message is still there. */
  lemma {:induction false} FailSteady(p: PlanState, id: StepId)
    requires Steady(p) && id in p.inFlight
    ensures Steady(p.(steps := MarkStep(p.steps, id, StepFailed)))
  {
    var q := p.(steps := MarkStep(p.steps, id, StepFailed));
    MarkKeepsShape(p.steps, id, StepFailed);
    SameShapeSameGraph(p.steps, q.steps);
    UndoneAfterMark(p.steps, id);
    forall x | Sent(x) in q.log ensures SentSoundly(q, x) {
      SameStepDeps(p, q, x);
    }
  }

  lemma {:induction false} UndoneAfterMark(steps: seq<PlanStep>, id: StepId)
    ensures DoneSet(MarkStep(steps, id, StepFailed)) == DoneSet(steps) - {id}
  {
    var marked := MarkStep(steps, id, StepFailed);
    forall d | d in DoneSet(steps) - {id} ensures d in DoneSet(marked) {
      var i :| 0 <= i < |steps| && steps[i].status == StepDone && steps[i].id == d;
      assert marked[i] in marked;
    }
    forall d | d in DoneSet(marked) ensures d in DoneSet(steps) - {id} {
      var i :| 0 <= i < |steps| && marked[i].status == StepDone && marked[i].id == d;
      assert steps[i] in steps;
    }
  }

  /** The message of a step that is done may go. */
  lemma {:induction false} DropKeeps(p: PlanState, id: StepId)
    requires Steady(p) && Driven(p) && id in DoneSet(p.steps)
    ensures Steady(p.(inFlight := p.inFlight - multiset{id})) && Driven(p.(inFlight := p.inFlight - multiset{id}))
  {
    var q := p.(inFlight := p.inFlight - multiset{id});
    forall x | Sent(x) in q.log ensures SentSoundly(q, x) {
      SameStepDeps(p, q, x);
    }
    forall i | 0 <= i < |p.steps| && p.steps[i].id == id ensures p.steps[i].status == StepDone {
      DoneById(p.steps, p.steps[i]);
    }
  }

  lemma {:induction false} SelectedAreFree(p: PlanState, rule: Rule)
    requires Distinct(StepIds(p.steps))
    ensures forall id | id in SelectAll(rule, p.steps) :: Free(p, id)
  {
    forall id | id in SelectAll(rule, p.steps) ensures Free(p, id) {
      SelectMembers(rule, p.steps, |p.steps|, id);
      var i :| 0 <= i < |p.steps| && p.steps[i].id == id && Selected(rule, p.steps, p.steps[i]);
      assert StepIds(p.steps)[i] == id;
      forall s | s in p.steps && s.id == id ensures s == p.steps[i] {
        UniqueStep(p.steps, s, p.steps[i]);
      }
    }
  }

  /** Fewer steps done, none without a message, and no message gone. */
  lemma {:induction false} DrivenStays(p: PlanState, q: PlanState)
    requires Driven(p) && SameShape(p.steps, q.steps) && DoneSet(q.steps) <= DoneSet(p.steps)
    requires forall id | id in p.inFlight :: id in q.inFlight
    requires forall i | 0 <= i < |p.steps| && p.steps[i].status == StepDone ::
               q.steps[i].status == StepDone || q.steps[i].id in q.inFlight
    ensures Driven(q)
  {
    forall i | 0 <= i < |q.steps| && DepsMet(q.steps, q.steps[i])
      ensures q.steps[i].status == StepDone || q.steps[i].id in q.inFlight
    {
      assert forall k | 0 <= k < |p.steps[i].dependsOn| :: p.steps[i].dependsOn[k] == q.steps[i].dependsOn[k];
      assert DepsMet(p.steps, p.steps[i]);
    }
  }

  // ----- the actions -----

  lemma {:induction false} HandledIsLive(p: PlanState, id: StepId)
    requires Steady(p) && Driven(p) && Sent(id) in p.log
    ensures Steady(Handled(p, id)) && Driven(Handled(p, id)) && id in DoneSet(Handled(p, id).steps)
  {
    var q := Finish(p, id);
    FinishSteady(p, id);
    SelectedAreFree(q, UnlockedBy(id));
    SendSteady(q, SelectAll(UnlockedBy(id), q.steps));
    DoneAfterMark(p.steps, id);
    forall i | 0 <= i < |q.steps| && DepsMet(q.steps, q.steps[i])
      ensures q.steps[i].status == StepDone || q.steps[i].id in Handled(p, id).inFlight
    {
      UnlockedIsSent(p, id, i);
    }
  }

  lemma {:induction false} UnlockedIsSent(p: PlanState, id: StepId, i: nat)
    requires Driven(p) && i < |p.steps|
    requires var q := Finish(p, id); DoneSet(q.steps) == DoneSet(p.steps) + {id} && DepsMet(q.steps, q.steps[i])
    ensures var q := Handled(p, id); q.steps[i].status == StepDone || q.steps[i].id in q.inFlight
  {
    var q := Finish(p, id);
    if id in q.steps[i].dependsOn {
      SelectMembers(UnlockedBy(id), q.steps, |q.steps|, q.steps[i].id);
      assert Selected(UnlockedBy(id), q.steps, q.steps[i]);
    } else {
      assert forall k | 0 <= k < |p.steps[i].dependsOn| :: p.steps[i].dependsOn[k] == q.steps[i].dependsOn[k] != id;
      assert DepsMet(p.steps, p.steps[i]);
    }
  }

  lemma {:induction false} DeliverIsHandledAndDropped(p: PlanState, id: StepId)
    requires id in p.inFlight
    ensures var q := Handled(p, id); PlanNext(p, Deliver(id)) == q.(inFlight := q.inFlight - multiset{id})
  {
    var sent := multiset(SelectAll(UnlockedBy(id), Finish(p, id).steps));
    assert p.inFlight + sent - multiset{id} == p.inFlight - multiset{id} + sent;
  }

  lemma {:induction false} ResumeIsLive(p: PlanState)
    requires Steady(p) && Driven(p)
    ensures var q := Send(p, SelectAll(ResumeRule, p.steps)); Steady(q) && Driven(q)
  {
    var ids := SelectAll(ResumeRule, p.steps);
    SelectedAreFree(p, ResumeRule);
    SendSteady(p, ids);
    SendStaysDriven(p, ids);
  }

  lemma {:induction false} SendStaysDriven(p: PlanState, ids: seq<StepId>)
    requires Driven(p)
    ensures Driven(Send(p, ids))
  {
  }

  lemma {:induction false} FailedStaysDriven(p: PlanState, q: PlanState, id: StepId)
    requires Driven(p) && id in p.inFlight
    requires q.steps == MarkStep(p.steps, id, StepFailed)
    requires forall x | x in p.inFlight :: x in q.inFlight
    ensures Driven(q)
  {
    MarkKeepsShape(p.steps, id, StepFailed);
    UndoneAfterMark(p.steps, id);
    DrivenStays(p, q);
  }

  lemma {:induction false} FailBeforeIsLive(p: PlanState, id: StepId)
    requires Steady(p) && Driven(p) && id in p.inFlight
    ensures var q := MarkFailed(p, id, true, false); Steady(q) && Driven(q)
  {
    FailSteady(p, id);
    FailedStaysDriven(p, MarkFailed(p, id, true, false), id);
  }

  /** A handler that failed after sending some of what it unlocked. */
  lemma {:induction false} FailAfterIsLive(p: PlanState, id: StepId, ids: seq<StepId>)
    requires Steady(p) && Driven(p) && id in p.inFlight
    requires forall x | x in ids :: x in SelectAll(UnlockedBy(id), Finish(p, id).steps)
    ensures var q := MarkFailed(Send(Finish(p, id), ids), id, true, false); Steady(q) && Driven(q)
  {
    var r := Send(Finish(p, id), ids);
    FinishSteady(p, id);
    SelectedAreFree(Finish(p, id), UnlockedBy(id));
    SendSteady(Finish(p, id), ids);
    FailSteady(r, id);
    MarkTwice(p.steps, id, StepDone, StepFailed);
    FailedStaysDriven(p, MarkFailed(r, id, true, false), id);
  }

  lemma {:induction false} MarkTwice(steps: seq<PlanStep>, id: StepId, a: StepStatus, b: StepStatus)
    ensures MarkStep(MarkStep(steps, id, a), id, b) == MarkStep(steps, id, b)
  {
  }

  lemma {:induction false} ActionIsLive(p: PlanState, a: PlanAction)
    requires Steady(p) && Driven(p) && PlanEnabled(p, a) && KeepsMessages(a)
    ensures Steady(PlanNext(p, a)) && Driven(PlanNext(p, a))
  {
    match a
    case Deliver(id) =>
      HandledIsLive(p, id);
      DropKeeps(Handled(p, id), id);
      DeliverIsHandledAndDropped(p, id);
    case Redeliver(id) => HandledIsLive(p, id);
    case FailBeforeDone(id, _, _) => FailBeforeIsLive(p, id);
    case FailAfter(id, k, _, _) => FailAfterIsLive(p, id, SelectAll(UnlockedBy(id), Finish(p, id).steps)[..k]);
    case Resume => ResumeIsLive(p);
    case Finalize => FinalizeIsLive(p);
  }

  lemma {:induction false} FinalizeIsLive(p: PlanState)
    requires Steady(p) && Driven(p)
    ensures Steady(PlanNext(p, Finalize)) && Driven(PlanNext(p, Finalize))
  {
    var q := PlanNext(p, Finalize);
    forall x | Sent(x) in q.log ensures SentSoundly(q, x) {
      SameStepDeps(p, q, x);
    }
  }

  lemma {:induction false} StoredIsSteady(p: PlanState, plan: seq<PlanStep>)
    requires FreshPlan(p) && ValidPlan(plan)
    ensures Steady(Store(p, plan))
  {
    NothingFinishedYet(StallEdges(plan));
    assert Store(p, plan).log == [PlanStored];
    assert DoneSet(plan) == {};
  }

  lemma {:induction false} NothingFinishedYet(edges: set<(StepId, StepId)>)
    ensures FirstFinishes([PlanStored]) == [] && Elements<StepId>([]) == {} && PredecessorsFirst(edges, [])
  {
    assert [PlanStored][..0] == [];
    assert FirstFinishes([PlanStored][..0]) == [];
  }

  lemma {:induction false} NoneDone(steps: seq<PlanStep>, s: PlanStep)
    requires DoneSet(steps) == {}
    ensures DepsMet(steps, s) <==> s.dependsOn == []
  {
    assert s.dependsOn != [] ==> s.dependsOn[0] !in DoneSet(steps);
  }

  lemma {:induction false} PlanItIsLive(p: PlanState, plan: seq<PlanStep>)
    requires FreshPlan(p) && ValidPlan(plan)
    ensures Steady(PlanNext(p, PlanIt(plan))) && Driven(PlanNext(p, PlanIt(plan)))
  {
    var q := Store(p, plan);
    StoredIsSteady(p, plan);
    SelectedAreFree(q, RootRule);
    SendSteady(q, SelectAll(RootRule, plan));
    assert DoneSet(plan) == {};
    forall i | 0 <= i < |plan| && DepsMet(plan, plan[i]) ensures plan[i].id in SelectAll(RootRule, plan) {
      NoneDone(plan, plan[i]);
      SelectMembers(RootRule, plan, |plan|, plan[i].id);
    }
  }

  // ----- every history that loses nothing -----

  lemma {:induction false} FrontLosesNothing(acts: seq<PlanAction>)
    requires NothingLost(acts) && |acts| > 1
    ensures NothingLost(acts[..|acts| - 1]) && acts[..|acts| - 1][0] == acts[0]
    ensures KeepsMessages(acts[|acts| - 1])
  {
  }

  lemma {:induction false} NothingLostIsLive(origin: PlanState, acts: seq<PlanAction>)
    requires PlanHistory(origin, acts) && NothingLost(acts)
    ensures Steady(PlanReplay(origin, acts)) && Driven(PlanReplay(origin, acts))
  {
    var before, last := acts[..|acts| - 1], acts[|acts| - 1];
    if before == [] {
      PlanItIsLive(origin, last.plan);
    } else {
      FrontLosesNothing(acts);
      NothingLostIsLive(origin, before);
      ActionIsLive(PlanReplay(origin, before), last);
    }
  }

  /** The plan keeps the shape it was stored with. */
  lemma {:induction false} KeepsShape(origin: PlanState, acts: seq<PlanAction>)
    requires NothingLost(acts)
    ensures SameShape(acts[0].plan, PlanReplay(origin, acts).steps)
  {
    var before := acts[..|acts| - 1];
    if before == [] {
      assert acts == [acts[0]] && PlanReplay(origin, before) == origin;
    } else {
      FrontLosesNothing(acts);
      KeepsShape(origin, before);
      ActionKeepsShape(PlanReplay(origin, before), acts[|acts| - 1]);
    }
  }

  lemma {:induction false} ShapeAtTheEnd(origin: PlanState, acts: seq<PlanAction>)
    requires NothingLost(acts)
    ensures var p := PlanReplay(origin, acts);
            StepIds(acts[0].plan) == StepIds(p.steps) && StallEdges(acts[0].plan) == StallEdges(p.steps)
  {
    KeepsShape(origin, acts);
    SameShapeSameGraph(acts[0].plan, PlanReplay(origin, acts).steps);
  }

  // ----- when nothing is in flight -----

  ghost function Undone(steps: seq<PlanStep>): set<StepId> {
    set x | x in StepIds(steps) && x !in DoneSet(steps)
  }

  /** In a quiet plan every step that is not done waits for another such step,
      or for itself. */
  lemma {:induction false} UndoneWaits(p: PlanState, v: StepId)
    requires Driven(p) && p.inFlight == multiset{}
    requires v in StepIds(p.steps) && v !in DoneSet(p.steps)
    ensures HasPredecessorIn(StallEdges(p.steps), Undone(p.steps), v)
  {
    var i :| 0 <= i < |p.steps| && StepIds(p.steps)[i] == v;
    var s := p.steps[i];
    assert s in p.steps && s.status != StepDone;
    assert !DepsMet(p.steps, s);
    var k :| 0 <= k < |s.dependsOn| && s.dependsOn[k] !in DoneSet(p.steps);
    var d := s.dependsOn[k];
    if d in StepIds(p.steps) {
      assert (d, v) in StallEdges(p.steps);
    } else {
      assert HasUnknown(p.steps, s);
      assert (v, v) in StallEdges(p.steps);
    }
  }

  lemma {:induction false} LiveAndQuiet(p: PlanState, id: StepId)
    requires Steady(p) && Driven(p) && p.inFlight == multiset{} && id in StepIds(p.steps)
    ensures id in DoneSet(p.steps) <==> !DownstreamOfCycle(StallEdges(p.steps), id)
  {
    var edges, all, order := StallEdges(p.steps), Elements(StepIds(p.steps)), FirstFinishes(p.log);
    var rest := set x | x in all && x !in order;
    assert rest == Undone(p.steps);
    forall v | v in rest ensures HasPredecessorIn(edges, rest, v) {
      UndoneWaits(p, v);
    }
    LeftoverIsDownstreamOfCycle(edges, all, order, id);
  }

  /** Once nothing is in flight, exactly the steps no cycle and no unknown
      dependency holds back are done. */
  lemma {:induction false} QuietMeansExhausted(origin: PlanState, acts: seq<PlanAction>, p: PlanState, id: StepId)
    requires PlanHistory(origin, acts) && NothingLost(acts) && p == PlanReplay(origin, acts)
    requires p.inFlight == multiset{} && id in StepIds(p.steps)
    ensures id in DoneSet(p.steps) <==> !DownstreamOfCycle(StallEdges(acts[0].plan), id)
  {
    NothingLostIsLive(origin, acts);
    ShapeAtTheEnd(origin, acts);
    LiveAndQuiet(p, id);
  }

  /** An acyclic plan with known dependencies that loses no message: when nothing
      is in flight every step is done and finalizing reports completion.  If each
      message was delivered once, each step was also dispatched exactly once. */
  lemma {:induction false} AcyclicPlanCompletes(origin: PlanState, acts: seq<PlanAction>, p: PlanState)
    requires PlanHistory(origin, acts) && NothingLost(acts) && p == PlanReplay(origin, acts)
    requires p.inFlight == multiset{}
    requires KnownDependencies(acts[0].plan) && Acyclic(DependencyEdges(acts[0].plan))
    ensures forall s | s in p.steps :: s.status == StepDone
    ensures PlanNext(p, Finalize).status == Complete
    ensures Orderly(acts) ==> forall s | s in p.steps :: Sends(p.log, s.id) == 1
  {
    forall s | s in p.steps ensures s.status == StepDone {
      FreeStepIsDone(origin, acts, p, s);
    }
    AllDoneIsComplete(p);
    if Orderly(acts) {
      DoneWasSentOnce(origin, acts, p);
    }
  }

  lemma {:induction false} AllDoneIsComplete(p: PlanState)
    requires forall s | s in p.steps :: s.status == StepDone
    ensures PlanNext(p, Finalize).status == Complete
  {
    assert forall i | 0 <= i < |p.steps| :: p.steps[i] in p.steps;
  }

  lemma {:induction false} DoneWasSentOnce(origin: PlanState, acts: seq<PlanAction>, p: PlanState)
    requires PlanHistory(origin, acts) && Orderly(acts) && p == PlanReplay(origin, acts)
    ensures forall s | s in p.steps && s.status == StepDone :: Sends(p.log, s.id) == 1
  {
    OrderlyIsExact(origin, acts);
    assert forall s | s in p.steps :: InStep(p, s);
  }

  lemma {:induction false} FreeStepIsDone(origin: PlanState, acts: seq<PlanAction>, p: PlanState, s: PlanStep)
    requires PlanHistory(origin, acts) && NothingLost(acts) && p == PlanReplay(origin, acts)
    requires p.inFlight == multiset{} && s in p.steps
    requires KnownDependencies(acts[0].plan) && Acyclic(DependencyEdges(acts[0].plan))
    ensures s.status == StepDone
  {
    var i :| 0 <= i < |p.steps| && p.steps[i] == s;
    assert StepIds(p.steps)[i] == s.id;
    var edges := StallEdges(acts[0].plan);
    KnownMeansNoLoops(acts[0].plan);
    if DownstreamOfCycle(edges, s.id) {
      DownstreamHasCycle(edges, s.id);
      assert false;
    }
    QuietMeansExhausted(origin, acts, p, s.id);
    HistoryKeepsIds(origin, acts);
    DoneById(p.steps, s);
  }

  lemma {:induction false} KnownMeansNoLoops(steps: seq<PlanStep>)
    requires KnownDependencies(steps)
    ensures StallEdges(steps) == DependencyEdges(steps)
  {
  }
}
