/** The message-driven fulfillment plan: a plan dispatches its roots, every
    completed step dispatches the dependents it unlocks.  Messages may be
    delivered in any order, more than once, and handlers may fail part-way. */
module FulfillmentProtocol {
  import opened Digraph

  type StepId = string

  datatype StepStatus = StepPending | StepRunning | StepDone | StepFailed

  datatype PlanStatus = Planned | Complete | Incomplete

  datatype PlanStep = PlanStep(id: StepId, dependsOn: seq<StepId>, retryable: bool, status: StepStatus)

  function StepIds(steps: seq<PlanStep>): seq<StepId> {
    seq(|steps|, i requires 0 <= i < |steps| => steps[i].id)
  }

  lemma {:induction false} IdsDiffer(steps: seq<PlanStep>)
    requires Distinct(StepIds(steps))
    ensures forall i, k | 0 <= i < k < |steps| :: steps[i].id != steps[k].id
  {
    forall i, k | 0 <= i < k < |steps| ensures steps[i].id != steps[k].id {
      assert StepIds(steps)[i] != StepIds(steps)[k];
    }
  }

  function DoneSet(steps: seq<PlanStep>): set<StepId> {
    set s | s in steps && s.status == StepDone :: s.id
  }

  predicate DepsMet(steps: seq<PlanStep>, s: PlanStep) {
    forall k :: 0 <= k < |s.dependsOn| ==> s.dependsOn[k] in DoneSet(steps)
  }

  function MarkStep(steps: seq<PlanStep>, id: StepId, status: StepStatus): seq<PlanStep> {
    seq(|steps|, i requires 0 <= i < |steps| =>
      if steps[i].id == id then steps[i].(status := status) else steps[i])
  }

  /** A plan as planning delivers it. */
  ghost predicate ValidPlan(plan: seq<PlanStep>) {
    Distinct(StepIds(plan)) && forall i | 0 <= i < |plan| :: plan[i].status == StepPending
  }

  function StepNamed(steps: seq<PlanStep>, id: StepId): (s: PlanStep)
    requires id in StepIds(steps)
    ensures s in steps && s.id == id
  {
    if steps[0].id == id then steps[0] else
      assert forall i | 1 <= i < |steps| :: StepIds(steps)[i] == StepIds(steps[1..])[i - 1];
      StepNamed(steps[1..], id)
  }

  // ----- which steps a handler dispatches -----

  datatype Rule = RootRule | UnlockedBy(id: StepId) | ResumeRule

  predicate Selected(rule: Rule, steps: seq<PlanStep>, s: PlanStep) {
    match rule
    case RootRule => s.dependsOn == []
    case UnlockedBy(id) => id in s.dependsOn && DepsMet(steps, s)
    case ResumeRule => s.status == StepPending && DepsMet(steps, s)
  }

  /** The ids a rule selects among the first n steps, in plan order. */
  function Select(rule: Rule, steps: seq<PlanStep>, n: nat): seq<StepId>
    requires n <= |steps|
  {
    if n == 0 then [] else
      Select(rule, steps, n - 1) + if Selected(rule, steps, steps[n - 1]) then [steps[n - 1].id] else []
  }

  function SelectAll(rule: Rule, steps: seq<PlanStep>): seq<StepId> {
    Select(rule, steps, |steps|)
  }

  lemma {:induction false} SelectMembers(rule: Rule, steps: seq<PlanStep>, n: nat, id: StepId)
    requires n <= |steps|
    ensures id in Select(rule, steps, n) <==>
            exists i :: 0 <= i < n && steps[i].id == id && Selected(rule, steps, steps[i])
  {
    if n > 0 {
      SelectMembers(rule, steps, n - 1, id);
    }
  }

  lemma {:induction false} SelectOnce(rule: Rule, steps: seq<PlanStep>, n: nat)
    requires n <= |steps| && Distinct(StepIds(steps))
    ensures Distinct(Select(rule, steps, n))
  {
    if n > 0 {
      SelectOnce(rule, steps, n - 1);
      SelectMembers(rule, steps, n - 1, steps[n - 1].id);
      assert forall i | 0 <= i < n - 1 ::
          StepIds(steps)[i] == steps[i].id && StepIds(steps)[i] != StepIds(steps)[n - 1];
    }
  }

  // ----- the state machine -----

  datatype Happening = PlanStored | Sent(id: StepId) | Finished(id: StepId)

  datatype PlanState = PlanState(
    steps: seq<PlanStep>,
    status: PlanStatus,
    inFlight: multiset<StepId>,
    log: seq<Happening>)

  function SentAll(ids: seq<StepId>): seq<Happening> {
    seq(|ids|, i requires 0 <= i < |ids| => Sent(ids[i]))
  }

  function Send(p: PlanState, ids: seq<StepId>): PlanState {
    p.(inFlight := p.inFlight + multiset(ids), log := p.log + SentAll(ids))
  }

  function Store(p: PlanState, plan: seq<PlanStep>): PlanState {
    p.(steps := plan, status := Planned, log := p.log + [PlanStored])
  }

  function Finish(p: PlanState, id: StepId): PlanState {
    p.(steps := MarkStep(p.steps, id, StepDone), log := p.log + [Finished(id)])
  }

  function Handled(p: PlanState, id: StepId): PlanState {
    var q := Finish(p, id);
    Send(q, SelectAll(UnlockedBy(id), q.steps))
  }

  /** A planning message may bring any plan, while messages of an earlier one are
      still about.  A step message says whether its step is `retryable`; `copy`
      marks a further copy of a message, which is not counted as in flight. */
  datatype PlanAction =
    | PlanIt(plan: seq<PlanStep>)
    | Deliver(id: StepId)
    | Redeliver(id: StepId)
    | FailBeforeDone(id: StepId, retryable: bool, copy: bool)
    | FailAfter(id: StepId, dispatched: nat, retryable: bool, copy: bool)
    | Resume
    | Finalize

  /** A failed handler marks its step failed.  The message is used up unless the
      step is retryable, when the error is raised again for redelivery. */
  function MarkFailed(p: PlanState, id: StepId, retryable: bool, copy: bool): PlanState {
    p.(steps := MarkStep(p.steps, id, StepFailed),
       inFlight := if retryable || copy then p.inFlight else p.inFlight - multiset{id})
  }

  /** The message is there, or was sent once and comes again. */
  predicate Arrives(p: PlanState, id: StepId, copy: bool) {
    if copy then Sent(id) in p.log else id in p.inFlight
  }

  ghost predicate PlanEnabled(p: PlanState, a: PlanAction) {
    match a
    case PlanIt(plan) => ValidPlan(plan)
    case Deliver(id) => Arrives(p, id, false)
    case Redeliver(id) => Arrives(p, id, true)
    case FailBeforeDone(id, _, copy) => Arrives(p, id, copy)
    case FailAfter(id, k, _, copy) =>
      Arrives(p, id, copy) && k <= |SelectAll(UnlockedBy(id), Finish(p, id).steps)|
    case _ => true
  }

  function PlanNext(p: PlanState, a: PlanAction): PlanState {
    match a
    case PlanIt(plan) => Send(Store(p, plan), SelectAll(RootRule, plan))
    case Deliver(id) => Handled(p.(inFlight := p.inFlight - multiset{id}), id)
    case Redeliver(id) => Handled(p, id)
    case FailBeforeDone(id, retryable, copy) => MarkFailed(p, id, retryable, copy)
    case FailAfter(id, k, retryable, copy) =>
      var q := Finish(p, id);
      var unlocked := SelectAll(UnlockedBy(id), q.steps);
      if k <= |unlocked| then MarkFailed(Send(q, unlocked[..k]), id, retryable, copy) else p
    case Resume => Send(p, SelectAll(ResumeRule, p.steps))
    case Finalize =>
      p.(status := if forall i :: 0 <= i < |p.steps| ==> p.steps[i].status == StepDone then Complete else Incomplete)
  }

  function PlanReplay(origin: PlanState, acts: seq<PlanAction>): PlanState {
    if acts == [] then origin else PlanNext(PlanReplay(origin, acts[..|acts| - 1]), acts[|acts| - 1])
  }

  ghost predicate PlanLegal(origin: PlanState, acts: seq<PlanAction>) {
    acts == [] || (
      var before := acts[..|acts| - 1];
      PlanLegal(origin, before) && PlanEnabled(PlanReplay(origin, before), acts[|acts| - 1]))
  }

  /** A plan in the store of which no message was sent yet. */
  ghost predicate FreshPlan(p: PlanState) {
    ValidPlan(p.steps) && p.inFlight == multiset{} && p.log == [] && p.status == Planned
  }

  ghost predicate PlanHistory(origin: PlanState, acts: seq<PlanAction>) {
    FreshPlan(origin) && PlanLegal(origin, acts)
  }

  lemma {:induction false} PlanHistoryStep(origin: PlanState, acts: seq<PlanAction>, a: PlanAction)
    requires PlanHistory(origin, acts) && PlanEnabled(PlanReplay(origin, acts), a)
    ensures PlanHistory(origin, acts + [a])
    ensures PlanReplay(origin, acts + [a]) == PlanNext(PlanReplay(origin, acts), a)
  {
    assert (acts + [a])[..|acts|] == acts;
  }

  // ----- only planning changes a plan's shape -----

  ghost predicate SameShape(a: seq<PlanStep>, b: seq<PlanStep>) {
    |a| == |b| && forall i :: 0 <= i < |a| ==> a[i].id == b[i].id && a[i].dependsOn == b[i].dependsOn
  }

  lemma {:induction false} ActionKeepsShape(p: PlanState, a: PlanAction)
    requires !a.PlanIt?
    ensures SameShape(p.steps, PlanNext(p, a).steps)
  {
    match a
    case Deliver(id) => MarkKeepsShape(p.steps, id, StepDone);
    case Redeliver(id) => MarkKeepsShape(p.steps, id, StepDone);
    case FailBeforeDone(id, _, _) => MarkKeepsShape(p.steps, id, StepFailed);
    case FailAfter(id, _, _, _) =>
      MarkKeepsShape(p.steps, id, StepDone);
      MarkKeepsShape(MarkStep(p.steps, id, StepDone), id, StepFailed);
    case _ =>
  }

  lemma {:induction false} MarkKeepsShape(steps: seq<PlanStep>, id: StepId, status: StepStatus)
    ensures SameShape(steps, MarkStep(steps, id, status))
  {
  }

  lemma {:induction false} SameShapeIds(a: seq<PlanStep>, b: seq<PlanStep>)
    requires SameShape(a, b)
    ensures StepIds(a) == StepIds(b)
  {
  }

  lemma {:induction false} HistoryKeepsIds(origin: PlanState, acts: seq<PlanAction>)
    requires PlanHistory(origin, acts)
    ensures Distinct(StepIds(PlanReplay(origin, acts).steps))
  {
    if acts != [] {
      var before, last := acts[..|acts| - 1], acts[|acts| - 1];
      HistoryKeepsIds(origin, before);
      if !last.PlanIt? {
        ActionKeepsShape(PlanReplay(origin, before), last);
        SameShapeIds(PlanReplay(origin, before).steps, PlanReplay(origin, acts).steps);
      }
    }
  }

  // ----- safety under any delivery: dependencies finished first -----

  /** What happened since the plan was last stored. */
  function Recent(log: seq<Happening>): seq<Happening> {
    if log == [] || log[|log| - 1].PlanStored? then [] else Recent(log[..|log| - 1]) + [log[|log| - 1]]
  }

  function Lately(p: PlanState): PlanState {
    p.(log := Recent(p.log))
  }

  lemma {:induction false} RecentAppend(log: seq<Happening>, ext: seq<Happening>)
    requires PlanStored !in ext
    ensures Recent(log + ext) == Recent(log) + ext
  {
    if ext == [] {
      assert log + ext == log;
    } else {
      var front, last := ext[..|ext| - 1], ext[|ext| - 1];
      RecentAppend(log, front);
      assert (log + ext)[..|log + ext| - 1] == log + front;
      assert ext == front + [last];
    }
  }

  /** Sending and finishing look the same from the last planning on. */
  lemma {:induction false} LatelySend(p: PlanState, ids: seq<StepId>)
    ensures Lately(Send(p, ids)) == Send(Lately(p), ids)
  {
    RecentAppend(p.log, SentAll(ids));
  }

  lemma {:induction false} LatelyFinish(p: PlanState, id: StepId)
    ensures Lately(Finish(p, id)) == Finish(Lately(p), id)
  {
    RecentAppend(p.log, [Finished(id)]);
  }

  lemma {:induction false} LatelyHandled(p: PlanState, id: StepId)
    ensures Lately(Handled(p, id)) == Handled(Lately(p), id)
  {
    LatelyFinish(p, id);
    LatelySend(Finish(p, id), SelectAll(UnlockedBy(id), Finish(p, id).steps));
  }

  lemma {:induction false} LatelyNext(p: PlanState, a: PlanAction)
    requires !a.PlanIt?
    ensures Lately(PlanNext(p, a)) == PlanNext(Lately(p), a)
  {
    match a
    case Deliver(id) => LatelyHandled(p.(inFlight := p.inFlight - multiset{id}), id);
    case Redeliver(id) => LatelyHandled(p, id);
    case FailAfter(id, k, _, _) =>
      var unlocked := SelectAll(UnlockedBy(id), Finish(p, id).steps);
      LatelyFinish(p, id);
      if k <= |unlocked| {
        LatelySend(Finish(p, id), unlocked[..k]);
      }
    case Resume => LatelySend(p, SelectAll(ResumeRule, p.steps));
    case _ =>
  }

  ghost predicate FinishedIn(log: seq<Happening>, id: StepId) {
    Finished(id) in log
  }

  /** Whatever was sent had all its dependencies finished before. */
  ghost predicate DependenciesFirst(steps: seq<PlanStep>, log: seq<Happening>) {
    forall i, k, d | 0 <= i < |log| && 0 <= k < |steps| && log[i] == Sent(steps[k].id) && d in steps[k].dependsOn ::
      FinishedIn(log[..i], d)
  }

  ghost predicate DoneWasFinished(p: PlanState) {
    forall d | d in DoneSet(p.steps) :: FinishedIn(p.log, d)
  }

  ghost predicate Respected(p: PlanState) {
    DependenciesFirst(p.steps, p.log) && DoneWasFinished(p)
  }

  /** Some step of that id has all its dependencies done. */
  ghost predicate MaySend(steps: seq<PlanStep>, id: StepId) {
    exists i :: 0 <= i < |steps| && steps[i].id == id && DepsMet(steps, steps[i])
  }

  lemma {:induction false} SendKeepsOrder(p: PlanState, ids: seq<StepId>)
    requires Distinct(StepIds(p.steps))
    requires Respected(p)
    requires forall j | 0 <= j < |ids| :: MaySend(p.steps, ids[j])
    ensures Respected(Send(p, ids))
  {
    var log := Send(p, ids).log;
    forall i, k, d | 0 <= i < |log| && 0 <= k < |p.steps| && log[i] == Sent(p.steps[k].id) && d in p.steps[k].dependsOn
      ensures FinishedIn(log[..i], d)
    {
      if i < |p.log| {
        assert log[..i] == p.log[..i];
      } else {
        var j := i - |p.log|;
        assert MaySend(p.steps, ids[j]);
        var m :| 0 <= m < |p.steps| && p.steps[m].id == ids[j] && DepsMet(p.steps, p.steps[m]);
        assert StepIds(p.steps)[m] == StepIds(p.steps)[k];
        assert m == k;
        assert FinishedIn(p.log, d);
        assert p.log <= log[..i];
      }
    }
  }

  lemma {:induction false} FinishKeepsOrder(p: PlanState, id: StepId)
    requires Respected(p)
    ensures Respected(Finish(p, id))
  {
    var q := Finish(p, id);
    forall i, k, d | 0 <= i < |q.log| && 0 <= k < |q.steps| && q.log[i] == Sent(q.steps[k].id) &&
        d in q.steps[k].dependsOn
      ensures FinishedIn(q.log[..i], d)
    {
      assert q.log[..i] == p.log[..i];
      assert p.log[i] == Sent(p.steps[k].id);
    }
    forall d | d in DoneSet(q.steps) ensures FinishedIn(q.log, d) {
      var s :| s in q.steps && s.status == StepDone && s.id == d;
      if d == id {
        assert q.log[|p.log|] == Finished(id);
      } else {
        assert s in p.steps;
        assert d in DoneSet(p.steps);
      }
    }
  }

  /** Only marking steps not-done: nothing new is done. */
  lemma {:induction false} FewerDoneKeepsOrder(p: PlanState, q: PlanState)
    requires Respected(p)
    requires SameShape(p.steps, q.steps) && q.log == p.log && DoneSet(q.steps) <= DoneSet(p.steps)
    ensures Respected(q)
  {
  }

  lemma {:induction false} MarkFailedKeepsOrder(p: PlanState, id: StepId, retryable: bool, copy: bool)
    requires Respected(p)
    ensures Respected(MarkFailed(p, id, retryable, copy))
  {
    var q := MarkFailed(p, id, retryable, copy);
    MarkKeepsShape(p.steps, id, StepFailed);
    forall d | d in DoneSet(q.steps) ensures d in DoneSet(p.steps) {
      var s :| s in q.steps && s.status == StepDone && s.id == d;
      assert s in p.steps;
    }
    FewerDoneKeepsOrder(p, q);
  }

  lemma {:induction false} SendSelected(p: PlanState, rule: Rule, k: nat)
    requires Distinct(StepIds(p.steps))
    requires Respected(p)
    requires k <= |SelectAll(rule, p.steps)|
    ensures Respected(Send(p, SelectAll(rule, p.steps)[..k]))
  {
    var ids := SelectAll(rule, p.steps)[..k];
    forall j | 0 <= j < |ids| ensures MaySend(p.steps, ids[j]) {
      assert ids[j] in SelectAll(rule, p.steps);
      SelectMembers(rule, p.steps, |p.steps|, ids[j]);
      var i :| 0 <= i < |p.steps| && p.steps[i].id == ids[j] && Selected(rule, p.steps, p.steps[i]);
      assert DepsMet(p.steps, p.steps[i]);
    }
    SendKeepsOrder(p, ids);
  }

  lemma {:induction false} HandledKeepsOrder(p: PlanState, id: StepId)
    requires Distinct(StepIds(p.steps)) && Respected(p)
    ensures Respected(Handled(p, id))
  {
    FinishKeepsOrder(p, id);
    var q := Finish(p, id);
    MarkKeepsShape(p.steps, id, StepDone);
    SameShapeIds(p.steps, q.steps);
    var ids := SelectAll(UnlockedBy(id), q.steps);
    assert ids[..|ids|] == ids;
    SendSelected(q, UnlockedBy(id), |ids|);
  }

  lemma {:induction false} FailAfterKeepsOrder(p: PlanState, id: StepId, k: nat, retryable: bool, copy: bool)
    requires Distinct(StepIds(p.steps)) && Respected(p)
    ensures Respected(PlanNext(p, FailAfter(id, k, retryable, copy)))
  {
    var q := Finish(p, id);
    FinishKeepsOrder(p, id);
    MarkKeepsShape(p.steps, id, StepDone);
    SameShapeIds(p.steps, q.steps);
    if k <= |SelectAll(UnlockedBy(id), q.steps)| {
      SendSelected(q, UnlockedBy(id), k);
      MarkFailedKeepsOrder(Send(q, SelectAll(UnlockedBy(id), q.steps)[..k]), id, retryable, copy);
    }
  }

  lemma {:induction false} ActionKeepsOrder(p: PlanState, a: PlanAction)
    requires Distinct(StepIds(p.steps)) && Respected(p) && !a.PlanIt?
    ensures Respected(PlanNext(p, a))
  {
    match a
    case Deliver(id) =>
      FewerDoneKeepsOrder(p, p.(inFlight := p.inFlight - multiset{id}));
      HandledKeepsOrder(p.(inFlight := p.inFlight - multiset{id}), id);
    case Redeliver(id) => HandledKeepsOrder(p, id);
    case FailBeforeDone(id, retryable, copy) => MarkFailedKeepsOrder(p, id, retryable, copy);
    case FailAfter(id, k, retryable, copy) => FailAfterKeepsOrder(p, id, k, retryable, copy);
    case Resume =>
      var ids := SelectAll(ResumeRule, p.steps);
      assert ids[..|ids|] == ids;
      SendSelected(p, ResumeRule, |ids|);
    case Finalize =>
  }

  lemma {:induction false} PlanningRespects(p: PlanState, plan: seq<PlanStep>)
    requires ValidPlan(plan)
    ensures Respected(Lately(PlanNext(p, PlanIt(plan))))
  {
    var q, roots := Store(p, plan), SelectAll(RootRule, plan);
    assert Recent(q.log) == [];
    assert DoneSet(plan) == {};
    assert Respected(Lately(q));
    assert roots[..|roots|] == roots;
    SendSelected(Lately(q), RootRule, |roots|);
    LatelySend(q, roots);
  }

  /** Whatever is redelivered, resumed, planned anew or fails part-way: since its
      plan was stored, no step was sent before each of its dependencies had
      finished, and whatever counts as done has finished, since then as well. */
  lemma {:induction false} NothingSentTooEarly(origin: PlanState, acts: seq<PlanAction>)
    requires PlanHistory(origin, acts)
    ensures Respected(Lately(PlanReplay(origin, acts)))
  {
    if acts == [] {
      assert DoneSet(origin.steps) == {};
    } else {
      var before, last := acts[..|acts| - 1], acts[|acts| - 1];
      var p := PlanReplay(origin, before);
      NothingSentTooEarly(origin, before);
      HistoryKeepsIds(origin, before);
      if last.PlanIt? {
        PlanningRespects(p, last.plan);
      } else {
        ActionKeepsOrder(Lately(p), last);
        LatelyNext(p, last);
      }
    }
  }
}
