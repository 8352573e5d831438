/** The fulfillment worker: message handlers over a stored plan whose step
    statuses change in place. */
module FulfillmentWorkers {
  import opened Basics
  import opened Digraph
  import opened FulfillmentProtocol
  import opened FulfillmentCompletion
  import opened FulfillmentCycles

  datatype StepResult = StepCompleted | StepSkipped | Raised

  class FulfillmentWorker {
    var steps: seq<PlanStep>
    var status: PlanStatus
    var queue: multiset<StepId>
    ghost var log: seq<Happening>
    ghost var acts: seq<PlanAction>
    ghost const origin: PlanState

    ghost function State(): PlanState
      reads this
    {
      PlanState(steps, status, queue, log)
    }

    /** The stored plan is where its history says it is. */
    ghost predicate Valid()
      reads this
    {
      PlanHistory(origin, acts) && PlanReplay(origin, acts) == State()
    }

    constructor (steps: seq<PlanStep>)
      requires ValidPlan(steps)
      ensures Valid() && acts == [] && this.steps == steps
    {
      this.steps, status, queue := steps, Planned, multiset{};
      log, acts := [], [];
      origin := PlanState(steps, Planned, multiset{}, []);
    }

    ghost method Emit(a: PlanAction, before: PlanState)
      requires PlanHistory(origin, acts) && PlanReplay(origin, acts) == before && PlanEnabled(before, a)
      requires State() == PlanNext(before, a)
      modifies `acts
      ensures Valid() && acts == old(acts) + [a]
    {
      PlanHistoryStep(origin, acts, a);
      acts := acts + [a];
    }

    method MarkStepTo(id: StepId, to: StepStatus)
      modifies `steps
      ensures steps == MarkStep(old(steps), id, to)
    {
      ghost var marked := MarkStep(steps, id, to);
      for i := 0 to |steps|
        invariant |steps| == |old(steps)|
        invariant steps[..i] == marked[..i] && steps[i..] == old(steps)[i..]
      {
        assert steps[i] == steps[i..][0] == old(steps)[i];
        if steps[i].id == id {
          steps := steps[i := steps[i].(status := to)];
        }
        assert marked[..i + 1] == marked[..i] + [marked[i]];
      }
    }

    method DispatchStep(s: PlanStep)
      modifies `queue, `log
      ensures State() == Send(old(State()), [s.id])
    {
      queue := queue + multiset{s.id};
      log := log + [Sent(s.id)];
    }

    /** Dispatch the selected steps in plan order.  The dispatch function may
        raise once `budget` messages are out. */
    method DispatchSelected(rule: Rule, budget: Option<nat>) returns (ok: bool)
      modifies `queue, `log
      ensures ok <==> budget.None? || budget.value >= |SelectAll(rule, steps)|
      ensures ok ==> State() == Send(old(State()), SelectAll(rule, steps))
      ensures !ok ==> State() == Send(old(State()), SelectAll(rule, steps)[..budget.value])
    {
      ghost var p := State();
      var sent := 0;
      for i := 0 to |steps|
        invariant steps == p.steps && sent == |Select(rule, p.steps, i)|
        invariant State() == SentUpTo(p, rule, i)
        invariant budget.Some? ==> sent <= budget.value
      {
        if Selected(rule, steps, steps[i]) {
          SelectShorter(rule, p.steps, i + 1);
          if budget.Some? && sent == budget.value {
            SelectPrefix(rule, p.steps, i);
            SentIsSelected(p, rule, i);
            return false;
          }
          DispatchStep(steps[i]);
          sent := sent + 1;
        }
      }
      SentIsSelected(p, rule, |steps|);
      return true;
    }

    /** Messages sent one by one for the selected ones of the first i steps. */
    static ghost function SentUpTo(p: PlanState, rule: Rule, i: nat): PlanState
      requires i <= |p.steps|
    {
      if i == 0 then p
      else if Selected(rule, p.steps, p.steps[i - 1]) then Send(SentUpTo(p, rule, i - 1), [p.steps[i - 1].id])
      else SentUpTo(p, rule, i - 1)
    }

    static lemma {:induction false} SentIsSelected(p: PlanState, rule: Rule, i: nat)
      requires i <= |p.steps|
      ensures SentUpTo(p, rule, i) == Send(p, Select(rule, p.steps, i))
    {
      if i == 0 {
        SendNothing(p);
      } else {
        SentIsSelected(p, rule, i - 1);
        SendTwice(p, Select(rule, p.steps, i - 1), p.steps[i - 1].id);
      }
    }

    lemma {:induction false} SelectGrows(rule: Rule, s: seq<PlanStep>, i: nat, n: nat)
      requires i <= n <= |s|
      ensures Select(rule, s, i) <= Select(rule, s, n)
      decreases n - i
    {
      if i < n {
        SelectGrows(rule, s, i, n - 1);
      }
    }

    lemma {:induction false} SelectShorter(rule: Rule, s: seq<PlanStep>, i: nat)
      requires i <= |s|
      ensures |Select(rule, s, i)| <= |SelectAll(rule, s)|
    {
      SelectGrows(rule, s, i, |s|);
    }

    lemma {:induction false} SelectPrefix(rule: Rule, s: seq<PlanStep>, i: nat)
      requires i <= |s|
      ensures var out := Select(rule, s, i);
              |out| <= |SelectAll(rule, s)| && SelectAll(rule, s)[..|out|] == out
    {
      SelectGrows(rule, s, i, |s|);
    }

    static lemma {:induction false} SendNothing(p: PlanState)
      ensures Send(p, []) == p
    {
      assert SentAll([]) == [];
    }

    static lemma {:induction false} SendTwice(p: PlanState, ids: seq<StepId>, id: StepId)
      ensures Send(Send(p, ids), [id]) == Send(p, ids + [id])
    {
      assert SentAll(ids + [id]) == SentAll(ids) + SentAll([id]);
      assert multiset(ids + [id]) == multiset(ids) + multiset([id]);
      assert p.log + (SentAll(ids) + SentAll([id])) == p.log + SentAll(ids) + SentAll([id]);
    }

    /** A planning message stores its plan and dispatches the roots. */
    method PlanExecution(plan: seq<PlanStep>) returns (dispatched: nat)
      requires Valid() && ValidPlan(plan)
      modifies this
      ensures Valid() && acts == old(acts) + [PlanIt(plan)]
      ensures steps == plan && dispatched == |SelectAll(RootRule, plan)|
    {
      ghost var before := State();
      steps, status := plan, Planned;
      log := log + [PlanStored];
      var ok := DispatchSelected(RootRule, None);
      dispatched := CountSelected(RootRule);
      Emit(PlanIt(plan), before);
    }

    method CountSelected(rule: Rule) returns (n: nat)
      ensures n == |SelectAll(rule, steps)|
    {
      n := 0;
      for i := 0 to |steps|
        invariant n == |Select(rule, steps, i)|
      {
        if Selected(rule, steps, steps[i]) {
          n := n + 1;
        }
      }
    }

    /** Handle a step message, which says whether its step is `retryable`.
        `redelivered` marks a further copy of one already handled or still
        outstanding; `early` and `raises` say where an exception strikes: before
        the step is done, or after that many dispatches. */
    method ExecuteStep(id: StepId, retryable: bool, redelivered: bool, early: bool, raises: Option<nat>)
      returns (r: StepResult)
      requires Valid() && Arrives(State(), id, redelivered)
      modifies this
      ensures Valid()
      ensures early ==> acts == old(acts) + [FailBeforeDone(id, retryable, redelivered)]
      ensures !early && r == StepCompleted ==> acts == old(acts) + [if redelivered then Redeliver(id) else Deliver(id)]
      ensures !early && r != StepCompleted ==>
                raises.Some? && acts == old(acts) + [FailAfter(id, raises.value, retryable, redelivered)]
      ensures r == StepCompleted <==>
              !early && (raises.None? || raises.value > |SelectAll(UnlockedBy(id), MarkStep(old(steps), id, StepDone))|)
      ensures r != StepCompleted ==> (r == Raised <==> retryable)
    {
      ghost var before := State();
      var ok := false;
      if !early {
        ok := FinishAndUnlock(id, raises);
      }
      if ok {
        Consume(id, redelivered, before);
        return StepCompleted;
      }
      FailStep(id, retryable, redelivered);
      Emit(if early then FailBeforeDone(id, retryable, redelivered)
           else FailAfter(id, raises.value, retryable, redelivered), before);
      return if retryable then Raised else StepSkipped;
    }

    /** A handled message is used up, unless it was a further copy. */
    method Consume(id: StepId, redelivered: bool, ghost before: PlanState)
      requires PlanHistory(origin, acts) && PlanReplay(origin, acts) == before && Arrives(before, id, redelivered)
      requires State() == Handled(before, id)
      modifies `queue, `acts
      ensures Valid() && acts == old(acts) + [if redelivered then Redeliver(id) else Deliver(id)]
    {
      if !redelivered {
        ConsumeCommutes(before.inFlight, multiset(SelectAll(UnlockedBy(id), Finish(before, id).steps)), id);
        queue := queue - multiset{id};
      }
      Emit(if redelivered then Redeliver(id) else Deliver(id), before);
    }

    /** The body of the handler: running, done, unlock.  False when an exception
        struck on the way. */
    method FinishAndUnlock(id: StepId, raises: Option<nat>) returns (ok: bool)
      modifies `steps, `queue, `log
      ensures var q := Finish(old(State()), id);
              var unlocked := SelectAll(UnlockedBy(id), q.steps);
              && steps == q.steps
              && (ok <==> raises.None? || raises.value > |unlocked|)
              && (ok ==> State() == Send(q, unlocked))
              && (!ok ==> raises.value <= |unlocked| && State() == Send(q, unlocked[..raises.value]))
    {
      MarkDone(id);
      ok := UnlockAll(id, raises);
    }

    /** Send what the finished step unlocks; an exception may strike before any
        of the messages or after the last one. */
    method UnlockAll(id: StepId, raises: Option<nat>) returns (ok: bool)
      modifies `queue, `log
      ensures var unlocked := SelectAll(UnlockedBy(id), steps);
              && (ok <==> raises.None? || raises.value > |unlocked|)
              && (ok ==> State() == Send(old(State()), unlocked))
              && (!ok ==> State() == Send(old(State()), unlocked[..raises.value]))
    {
      ghost var all := SelectAll(UnlockedBy(id), steps);
      var count := CountSelected(UnlockedBy(id));
      ok := DispatchSelected(UnlockedBy(id), raises);
      if raises == Some(count) {
        assert all[..count] == all;
        ok := false;
      }
    }

    method MarkDone(id: StepId)
      modifies `steps, `log
      ensures State() == Finish(old(State()), id)
    {
      ghost var before := steps;
      MarkStepTo(id, StepRunning);
      MarkStepTo(id, StepDone);
      assert steps == MarkStep(before, id, StepDone);
      log := log + [Finished(id)];
    }

    method FailStep(id: StepId, retryable: bool, redelivered: bool)
      modifies `steps, `queue
      ensures State() == MarkFailed(old(State()), id, retryable, redelivered)
    {
      MarkStepTo(id, StepFailed);
      if !retryable && !redelivered {
        queue := queue - multiset{id};
      }
    }

    lemma {:induction false} ConsumeCommutes(a: multiset<StepId>, b: multiset<StepId>, id: StepId)
      requires id in a
      ensures a + b - multiset{id} == a - multiset{id} + b
    {
    }

    /** Send the pending steps that are free to go, and name them. */
    method ResumePlan() returns (ready: seq<StepId>)
      requires Valid()
      modifies this
      ensures Valid() && acts == old(acts) + [Resume]
      ensures steps == old(steps) && ready == SelectAll(ResumeRule, steps)
      ensures forall id :: id in ready <==>
                exists i :: 0 <= i < |steps| && steps[i].id == id && steps[i].status == StepPending &&
                    DepsMet(steps, steps[i])
    {
      ghost var before := State();
      ready := ReadySteps();
      var ok := DispatchSelected(ResumeRule, None);
      Emit(Resume, before);
    }

    method ReadySteps() returns (ready: seq<StepId>)
      ensures ready == SelectAll(ResumeRule, steps)
      ensures forall id :: id in ready <==>
                exists i :: 0 <= i < |steps| && steps[i].id == id && steps[i].status == StepPending &&
                    DepsMet(steps, steps[i])
    {
      ready := [];
      for i := 0 to |steps|
        invariant ready == Select(ResumeRule, steps, i)
      {
        if Selected(ResumeRule, steps, steps[i]) {
          ready := ready + [steps[i].id];
        }
      }
      forall id ensures id in ready <==>
                  exists i :: 0 <= i < |steps| && steps[i].id == id && Selected(ResumeRule, steps, steps[i])
      {
        SelectMembers(ResumeRule, steps, |steps|, id);
      }
    }

    method FinalizePlan() returns (r: PlanStatus)
      requires Valid()
      modifies this
      ensures Valid() && acts == old(acts) + [Finalize] && r == status
      ensures r == Complete <==> forall i :: 0 <= i < |steps| ==> steps[i].status == StepDone
    {
      ghost var before := State();
      status := if forall i :: 0 <= i < |steps| ==> steps[i].status == StepDone then Complete else Incomplete;
      r := status;
      Emit(Finalize, before);
    }

    /** The tail of Kahn's algorithm with a stack.  For every plan with unique
        step ids it names exactly the steps on or downstream of a cycle, counting
        a repeated or unknown dependency as a self-loop; it is empty exactly when
        the plan is acyclic and has neither. */
    method DetectCycles() returns (report: seq<StepId>)
      requires Distinct(StepIds(steps))
      ensures forall v :: v in report <==> v in StepIds(steps) && DownstreamOfCycle(ReportEdges(steps), v)
      ensures report == [] <==> Acyclic(DependencyEdges(steps)) && KnownDependencies(steps) && NoRepeats(steps)
    {
      var indeg, stack := InitialStack();
      var visited := 0;
      ghost var order: seq<StepId> := [];
      assert Elements(order) == {};
      while stack != []
        invariant indeg.Keys == Elements(StepIds(steps)) && Counted(steps, indeg, stack, Elements(order))
        invariant Distinct(order) && PredecessorsFirst(ReportEdges(steps), order)
        invariant Elements(order) <= Elements(StepIds(steps))
        invariant visited == |order|
        decreases |steps| - |order|
      {
        PoppedIsFree(steps, indeg, stack, order);
        ScanStart(steps, indeg, stack, Elements(order));
        var id := stack[|stack| - 1];
        indeg, stack := Scan(indeg, stack[..|stack| - 1], Elements(order), id);
        order := order + [id];
        visited := visited + 1;
        DistinctSize(order);
        DistinctSize(StepIds(steps));
        SubsetSize(Elements(order), Elements(StepIds(steps)));
      }
      ScanIsExact(steps, indeg, order);
      AllListedBySize(steps, order);
      report := [];
      if visited != |steps| {
        report := Positive(indeg);
      }
      ReportEmptyExactly(steps);
      assert report != [] ==> report[0] in report;
    }

    method InitialStack() returns (indeg: map<StepId, int>, stack: seq<StepId>)
      requires Distinct(StepIds(steps))
      ensures Counted(steps, indeg, stack, {})
    {
      indeg, stack := map[], [];
      for i := 0 to |steps|
        invariant indeg.Keys == set k | 0 <= k < i :: steps[k].id
        invariant forall k | 0 <= k < i :: steps[k].id in indeg && indeg[steps[k].id] == |steps[k].dependsOn|
        invariant Distinct(stack)
        invariant forall n :: n in stack <==> n in indeg && indeg[n] == 0
      {
        var s := steps[i];
        IdsDiffer(steps);
        assert s.id !in indeg;
        indeg := indeg[s.id := |s.dependsOn|];
        if |s.dependsOn| == 0 {
          stack := stack + [s.id];
        }
      }
      assert indeg.Keys == Elements(StepIds(steps)) by {
        assert forall k | 0 <= k < |steps| :: StepIds(steps)[k] == steps[k].id;
      }
      forall k | 0 <= k < |steps| ensures indeg[steps[k].id] == Waiting(steps[k].dependsOn, {}) {
        assert Elements(steps[k].dependsOn) * {} == {};
      }
    }

    method Scan(indeg0: map<StepId, int>, stack0: seq<StepId>, ghost done: set<StepId>, id: StepId)
      returns (indeg: map<StepId, int>, stack: seq<StepId>)
      requires Distinct(StepIds(steps)) && Scanned(steps, indeg0, stack0, done, id, 0)
      ensures Counted(steps, indeg, stack, done + {id})
    {
      indeg, stack := indeg0, stack0;
      for i := 0 to |steps|
        invariant Scanned(steps, indeg, stack, done, id, i)
      {
        ScanStep(steps, indeg, stack, done, id, i);
        indeg, stack := Lower(indeg, stack, id, i);
      }
      ScanEnd(steps, indeg, stack, done, id);
    }

    /** Step i no longer waits for `id`. */
    method Lower(indeg0: map<StepId, int>, stack0: seq<StepId>, id: StepId, i: nat)
      returns (indeg: map<StepId, int>, stack: seq<StepId>)
      requires i < |steps| && steps[i].id in indeg0
      ensures indeg == Lowered(steps, indeg0, id, i) && stack == Pushed(steps, indeg0, stack0, id, i)
    {
      indeg, stack := indeg0, stack0;
      var s := steps[i];
      if id in s.dependsOn {
        indeg := indeg[s.id := indeg[s.id] - 1];
        if indeg[s.id] == 0 {
          stack := stack + [s.id];
        }
      }
    }

    method Positive(indeg: map<StepId, int>) returns (ids: seq<StepId>)
      requires forall v | v in StepIds(steps) :: v in indeg && indeg[v] >= 0
      ensures forall v :: v in ids <==> v in StepIds(steps) && indeg[v] != 0
    {
      ids := [];
      for i := 0 to |steps|
        invariant forall v :: v in ids <==> v in StepIds(steps)[..i] && indeg[v] != 0
      {
        assert StepIds(steps)[i] in StepIds(steps);
        if indeg[steps[i].id] > 0 {
          ids := ids + [steps[i].id];
        }
      }
      assert StepIds(steps)[..|steps|] == StepIds(steps);
    }

    method ValidatePlan() returns (report: seq<StepId>, count: nat)
      requires Distinct(StepIds(steps))
      ensures forall v :: v in report <==> v in StepIds(steps) && DownstreamOfCycle(ReportEdges(steps), v)
      ensures report == [] <==> Acyclic(DependencyEdges(steps)) && KnownDependencies(steps) && NoRepeats(steps)
      ensures count == |steps|
    {
      report := DetectCycles();
      count := |steps|;
    }
  }
}
