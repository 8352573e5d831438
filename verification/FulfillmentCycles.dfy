/** The cycle report of a fulfillment plan, and what it predicts about running
    the plan. */
module FulfillmentCycles {
  import opened Digraph
  import opened FulfillmentProtocol
  import opened FulfillmentCompletion
  import opened FulfillmentRecovery

  /** The report counts list entries, so to it a step that names a dependency
      twice, or an unknown one, looks as if it waited for itself. */
  ghost function ReportEdges(steps: seq<PlanStep>): set<(StepId, StepId)> {
    StallEdges(steps) + set s | s in steps && RepeatsADependency(s) :: (s.id, s.id)
  }

  // ----- in-degrees -----

  ghost function Waiting(deps: seq<StepId>, done: set<StepId>): int {
    |deps| - |Elements(deps) * done|
  }

  lemma {:induction false} ElementsAtMost<T>(s: seq<T>)
    ensures |Elements(s)| <= |s|
    ensures |Elements(s)| == |s| ==> Distinct(s)
  {
    if s != [] {
      var front := s[..|s| - 1];
      ElementsAtMost(front);
      assert Elements(s) == Elements(front) + {s[|s| - 1]};
    }
  }

  lemma {:induction false} WaitingFacts(deps: seq<StepId>, done: set<StepId>)
    ensures Waiting(deps, done) >= 0
    ensures Waiting(deps, done) == 0 <==> Distinct(deps) && Elements(deps) <= done
  {
    ElementsAtMost(deps);
    SubsetSize(Elements(deps) * done, Elements(deps));
    if Distinct(deps) {
      DistinctSize(deps);
    }
    if Elements(deps) <= done {
      assert Elements(deps) * done == Elements(deps);
    }
  }

  lemma {:induction false} WaitingStep(deps: seq<StepId>, done: set<StepId>, id: StepId)
    requires id !in done
    ensures Waiting(deps, done + {id}) == Waiting(deps, done) - if id in deps then 1 else 0
  {
    if id in deps {
      assert Elements(deps) * (done + {id}) == Elements(deps) * done + {id};
    } else {
      assert Elements(deps) * (done + {id}) == Elements(deps) * done;
    }
  }

  /** The first i steps know that `id` is finished, the others do not yet. */
  ghost predicate CountsUpTo(steps: seq<PlanStep>, indeg: map<StepId, int>, done: set<StepId>, id: StepId, i: nat) {
    && indeg.Keys == Elements(StepIds(steps))
    && forall k | 0 <= k < |steps| ::
         steps[k].id in indeg
         && indeg[steps[k].id] == Waiting(steps[k].dependsOn, if k < i then done + {id} else done)
  }

  /** The stack holds exactly the unfinished steps whose count is zero. */
  ghost predicate StackOfZeros(indeg: map<StepId, int>, stack: seq<StepId>, done: set<StepId>) {
    && Distinct(stack) && Elements(stack) !! done && Elements(stack) <= indeg.Keys
    && forall n | n in indeg :: indeg[n] == 0 <==> n in done || n in Elements(stack)
  }

  /** Where the scan of the current round has got to. */
  ghost predicate Scanned(
    steps: seq<PlanStep>, indeg: map<StepId, int>, stack: seq<StepId>, done: set<StepId>, id: StepId, i: nat)
  {
    id !in done && CountsUpTo(steps, indeg, done, id, i) && StackOfZeros(indeg, stack, done + {id})
  }

  ghost predicate Counted(steps: seq<PlanStep>, indeg: map<StepId, int>, stack: seq<StepId>, done: set<StepId>) {
    && indeg.Keys == Elements(StepIds(steps))
    && (forall k | 0 <= k < |steps| :: steps[k].id in indeg && indeg[steps[k].id] == Waiting(steps[k].dependsOn, done))
    && StackOfZeros(indeg, stack, done)
  }

  lemma {:induction false} ScanStart(steps: seq<PlanStep>, indeg: map<StepId, int>, stack: seq<StepId>,
                                     done: set<StepId>)
    requires stack != [] && Counted(steps, indeg, stack, done)
    ensures Scanned(steps, indeg, stack[..|stack| - 1], done, stack[|stack| - 1], 0)
  {
    var front, last := stack[..|stack| - 1], stack[|stack| - 1];
    assert Elements(stack) == Elements(front) + {last};
    assert last in Elements(stack);
  }

  /** What scanning step i does to its own count. */
  function Lowered(steps: seq<PlanStep>, indeg: map<StepId, int>, id: StepId, i: nat): map<StepId, int>
    requires i < |steps| && steps[i].id in indeg
  {
    if id in steps[i].dependsOn then indeg[steps[i].id := indeg[steps[i].id] - 1] else indeg
  }

  function Pushed(steps: seq<PlanStep>, indeg: map<StepId, int>, stack: seq<StepId>, id: StepId, i: nat): seq<StepId>
    requires i < |steps| && steps[i].id in indeg
  {
    if id in steps[i].dependsOn && indeg[steps[i].id] == 1 then stack + [steps[i].id] else stack
  }

  lemma {:induction false} ScanStepCounts(steps: seq<PlanStep>, indeg: map<StepId, int>, done: set<StepId>,
                                          id: StepId, i: nat)
    requires Distinct(StepIds(steps)) && i < |steps| && id !in done
    requires CountsUpTo(steps, indeg, done, id, i)
    ensures CountsUpTo(steps, Lowered(steps, indeg, id, i), done, id, i + 1)
  {
    WaitingStep(steps[i].dependsOn, done, id);
    IdsDiffer(steps);
  }

  lemma {:induction false} ScanStepStack(indeg: map<StepId, int>, stack: seq<StepId>, done: set<StepId>, n: StepId)
    requires StackOfZeros(indeg, stack, done) && n in indeg && indeg[n] >= 1
    ensures StackOfZeros(indeg[n := indeg[n] - 1], if indeg[n] == 1 then stack + [n] else stack, done)
  {
    assert Elements(stack + [n]) == Elements(stack) + {n};
    assert n !in stack by {
      assert n !in Elements(stack);
    }
  }

  lemma {:induction false} ScanStep(
    steps: seq<PlanStep>, indeg: map<StepId, int>, stack: seq<StepId>, done: set<StepId>, id: StepId, i: nat)
    requires Distinct(StepIds(steps)) && i < |steps|
    requires Scanned(steps, indeg, stack, done, id, i)
    ensures steps[i].id in indeg
    ensures Scanned(steps, Lowered(steps, indeg, id, i), Pushed(steps, indeg, stack, id, i), done, id, i + 1)
  {
    ScanStepCounts(steps, indeg, done, id, i);
    if id in steps[i].dependsOn {
      WaitingStep(steps[i].dependsOn, done, id);
      WaitingFacts(steps[i].dependsOn, done + {id});
      ScanStepStack(indeg, stack, done + {id}, steps[i].id);
    }
  }

  lemma {:induction false} ScanEnd(steps: seq<PlanStep>, indeg: map<StepId, int>, stack: seq<StepId>,
                                   done: set<StepId>, id: StepId)
    requires Scanned(steps, indeg, stack, done, id, |steps|)
    ensures Counted(steps, indeg, stack, done + {id})
  {
  }

  // ----- what the finished scan means -----

  lemma {:induction false} ReportEdgeSource(steps: seq<PlanStep>, e: (StepId, StepId)) returns (k: nat)
    requires e in ReportEdges(steps)
    ensures k < |steps| && steps[k].id == e.1
    ensures e.0 in steps[k].dependsOn || HasUnknown(steps, steps[k]) || RepeatsADependency(steps[k])
  {
    if e in DependencyEdges(steps) {
      k :| 0 <= k < |steps| && steps[k].id == e.1 && e.0 in steps[k].dependsOn;
    } else if e in StallEdges(steps) {
      k :| 0 <= k < |steps| && steps[k].id == e.1 && HasUnknown(steps, steps[k]);
    } else {
      k :| 0 <= k < |steps| && steps[k].id == e.1 && RepeatsADependency(steps[k]);
    }
  }

  /** A step popped from the stack has only finished, distinct dependencies. */
  lemma {:induction false} PoppedIsFree(
    steps: seq<PlanStep>, indeg: map<StepId, int>, stack: seq<StepId>, order: seq<StepId>)
    requires Distinct(StepIds(steps)) && stack != [] && Counted(steps, indeg, stack, Elements(order))
    requires Distinct(order) && PredecessorsFirst(ReportEdges(steps), order) &&
        Elements(order) <= Elements(StepIds(steps))
    ensures var longer := order + [stack[|stack| - 1]];
            Distinct(longer) && PredecessorsFirst(ReportEdges(steps), longer)
            && Elements(longer) == Elements(order) + {stack[|stack| - 1]} &&
              Elements(longer) <= Elements(StepIds(steps))
  {
    var id := stack[|stack| - 1];
    assert id in Elements(stack);
    forall e | e in ReportEdges(steps) && e.1 == id ensures e.0 in order {
      var k := ReportEdgeSource(steps, e);
      var deps := steps[k].dependsOn;
      WaitingFacts(deps, Elements(order));
      assert forall d | d in deps :: d in Elements(deps);
    }
    AppendListed(ReportEdges(steps), order, id);
  }

  lemma {:induction false} LeftoverWaits(steps: seq<PlanStep>, indeg: map<StepId, int>, order: seq<StepId>, v: StepId)
    requires Counted(steps, indeg, [], Elements(order))
    requires v in StepIds(steps) && v !in order
    ensures HasPredecessorIn(ReportEdges(steps), (set x | x in Elements(StepIds(steps)) && x !in order), v)
  {
    var k :| 0 <= k < |steps| && StepIds(steps)[k] == v;
    var s := steps[k];
    WaitingFacts(s.dependsOn, Elements(order));
    assert indeg[v] != 0;
    if !Distinct(s.dependsOn) {
      assert s in steps && RepeatsADependency(s);
      assert (v, v) in ReportEdges(steps);
    } else {
      var d :| d in Elements(s.dependsOn) && d !in Elements(order);
      if d in StepIds(steps) {
        assert (d, v) in DependencyEdges(steps);
      } else {
        assert HasUnknown(steps, s);
        assert (v, v) in StallEdges(steps);
      }
    }
  }

  lemma {:induction false} CountsAtTheEnd(steps: seq<PlanStep>, indeg: map<StepId, int>, order: seq<StepId>, v: StepId)
    requires Counted(steps, indeg, [], Elements(order)) && v in StepIds(steps)
    ensures v in indeg && indeg[v] >= 0 && (indeg[v] == 0 <==> v in order)
  {
    var k :| 0 <= k < |steps| && StepIds(steps)[k] == v;
    WaitingFacts(steps[k].dependsOn, Elements(order));
    assert v in order <==> v in Elements(order);
  }

  lemma {:induction false} AllListedBySize(steps: seq<PlanStep>, order: seq<StepId>)
    requires Distinct(StepIds(steps)) && Distinct(order) && Elements(order) <= Elements(StepIds(steps))
    ensures |order| == |steps| <==> forall v | v in StepIds(steps) :: v in order
  {
    var all := Elements(StepIds(steps));
    DistinctSize(order);
    DistinctSize(StepIds(steps));
    SubsetSize(Elements(order), all);
    if forall v | v in StepIds(steps) :: v in order {
      assert all == Elements(order);
    } else {
      var v :| v in StepIds(steps) && v !in order;
      assert v in all && v !in Elements(order);
    }
  }

  lemma {:induction false} ScanIsExact(steps: seq<PlanStep>, indeg: map<StepId, int>, order: seq<StepId>)
    requires Counted(steps, indeg, [], Elements(order))
    requires Distinct(order) && PredecessorsFirst(ReportEdges(steps), order)
    ensures forall v | v in StepIds(steps) :: v !in order <==> DownstreamOfCycle(ReportEdges(steps), v)
    ensures forall v | v in StepIds(steps) :: v in indeg && indeg[v] >= 0 && (indeg[v] == 0 <==> v in order)
  {
    var all := Elements(StepIds(steps));
    var rest := set x | x in all && x !in order;
    forall v | v in rest ensures HasPredecessorIn(ReportEdges(steps), rest, v) {
      LeftoverWaits(steps, indeg, order, v);
    }
    forall v | v in StepIds(steps)
      ensures v !in order <==> DownstreamOfCycle(ReportEdges(steps), v)
      ensures v in indeg && indeg[v] >= 0 && (indeg[v] == 0 <==> v in order)
    {
      LeftoverIsDownstreamOfCycle(ReportEdges(steps), all, order, v);
      CountsAtTheEnd(steps, indeg, order, v);
    }
  }

  /** With duplicate-free, known dependencies the report is about real cycles. */
  lemma {:induction false} ReportIsAboutCycles(steps: seq<PlanStep>)
    requires KnownDependencies(steps) && NoRepeats(steps)
    ensures ReportEdges(steps) == DependencyEdges(steps)
    ensures Acyclic(DependencyEdges(steps)) <==>
            forall v | v in StepIds(steps) :: !DownstreamOfCycle(ReportEdges(steps), v)
  {
    var edges := DependencyEdges(steps);
    assert ReportEdges(steps) == edges;
    forall e | e in edges ensures e.0 in Elements(StepIds(steps)) && e.1 in Elements(StepIds(steps)) {
      var s :| s in steps && s.id == e.1 && e.0 in s.dependsOn;
      assert !HasUnknown(steps, s);
      var k :| 0 <= k < |steps| && steps[k] == s;
      assert StepIds(steps)[k] == e.1;
    }
    AcyclicMeansNothingDownstream(edges, Elements(StepIds(steps)));
    assert forall v :: v in Elements(StepIds(steps)) <==> v in StepIds(steps);
  }

  /** The report is empty exactly when the dependency graph is acyclic, every
      dependency is known and none is listed twice. */
  lemma {:induction false} ReportEmptyExactly(steps: seq<PlanStep>)
    ensures (forall v | v in StepIds(steps) :: !DownstreamOfCycle(ReportEdges(steps), v)) <==>
            Acyclic(DependencyEdges(steps)) && KnownDependencies(steps) && NoRepeats(steps)
  {
    if forall v | v in StepIds(steps) :: !DownstreamOfCycle(ReportEdges(steps), v) {
      forall s | s in steps ensures !HasUnknown(steps, s) && !RepeatsADependency(s) {
        var k :| 0 <= k < |steps| && steps[k] == s;
        assert StepIds(steps)[k] == s.id;
        if HasUnknown(steps, s) || RepeatsADependency(s) {
          SelfLoopIsDownstream(steps, s);
          assert false;
        }
      }
      ReportIsAboutCycles(steps);
    } else if KnownDependencies(steps) && NoRepeats(steps) {
      ReportIsAboutCycles(steps);
    }
  }

  lemma {:induction false} SelfLoopIsDownstream(steps: seq<PlanStep>, s: PlanStep)
    requires s in steps && (HasUnknown(steps, s) || RepeatsADependency(s))
    ensures DownstreamOfCycle(ReportEdges(steps), s.id)
  {
    assert (s.id, s.id) in ReportEdges(steps);
    assert IsCycle(ReportEdges(steps), [s.id, s.id]);
    OnCycleIsDownstream(ReportEdges(steps), [s.id, s.id]);
  }

  /** An acyclic plan whose second step lists its one dependency twice. */
  lemma {:induction false} AcyclicPlanIsReported(plan: seq<PlanStep>)
    requires plan == [PlanStep("a", [], true, StepPending), PlanStep("b", ["a", "a"], true, StepPending)]
    ensures ValidPlan(plan) && KnownDependencies(plan) && Acyclic(DependencyEdges(plan))
    ensures "b" in StepIds(plan) && DownstreamOfCycle(ReportEdges(plan), "b")
  {
    assert StepIds(plan) == ["a", "b"];
    assert plan[1].dependsOn == ["a", "a"] && plan[1] in plan;
    assert RepeatsADependency(plan[1]) by {
      assert plan[1].dependsOn[0] == plan[1].dependsOn[1];
    }
    SelfLoopIsDownstream(plan, plan[1]);
    assert "a"[0] != "b"[0];
    assert forall e | e in DependencyEdges(plan) :: e == ("a", "b");
    StarIsAcyclic(DependencyEdges(plan), "a");
  }

  /** Unless some dependency is listed twice, the report names exactly the steps
      that will never be done while no message is lost; so finalizing a
      quiet plan reports completion exactly when the report is empty. */
  lemma {:induction false} ReportPredictsStall(origin: PlanState, acts: seq<PlanAction>, p: PlanState,
                                               report: set<StepId>)
    requires PlanHistory(origin, acts) && NothingLost(acts) && p == PlanReplay(origin, acts)
    requires p.inFlight == multiset{}
    requires NoRepeats(acts[0].plan)
    requires forall v :: v in report <==>
               v in StepIds(acts[0].plan) && DownstreamOfCycle(ReportEdges(acts[0].plan), v)
    ensures report == Undone(p.steps)
    ensures PlanNext(p, Finalize).status == Complete <==> report == {}
  {
    assert ReportEdges(acts[0].plan) == StallEdges(acts[0].plan);
    ShapeAtTheEnd(origin, acts);
    forall v | v in StepIds(p.steps) ensures v in DoneSet(p.steps) <==> v !in report {
      QuietMeansExhausted(origin, acts, p, v);
    }
    HistoryKeepsIds(origin, acts);
    CompleteMeansNoneUndone(p);
  }

  lemma {:induction false} CompleteMeansNoneUndone(p: PlanState)
    requires Distinct(StepIds(p.steps))
    ensures PlanNext(p, Finalize).status == Complete <==> Undone(p.steps) == {}
  {
    forall i | 0 <= i < |p.steps| ensures p.steps[i].status == StepDone <==> p.steps[i].id !in Undone(p.steps) {
      DoneById(p.steps, p.steps[i]);
      assert StepIds(p.steps)[i] == p.steps[i].id;
    }
    forall v | v in Undone(p.steps) ensures exists i :: 0 <= i < |p.steps| && p.steps[i].status != StepDone {
      var i :| 0 <= i < |p.steps| && StepIds(p.steps)[i] == v;
      assert p.steps[i].id in Undone(p.steps);
    }
  }
}
