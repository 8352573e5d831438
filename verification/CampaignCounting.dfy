/** Bounded dispatch over a whole history: completed and failed nodes are never
    scheduled again, so attempts, successes and compensations stay bounded per
    node however often the campaign is started, advanced or approved. */
module CampaignCounting {
  import opened Basics
  import opened CampaignModel
  import opened CampaignSemantics
  import opened CampaignInvariants
  import CampaignGating

  datatype Kind = AnyAttempt | GoodAttempt | Compensation

  predicate Is(e: Event, n: NodeId, kind: Kind) {
    match kind
    case AnyAttempt => e.Attempted? && e.node == n
    case GoodAttempt => e.Attempted? && e.node == n && e.ok
    case Compensation => e == Compensated(n)
  }

  /** How many ledger entries about n are of this kind. */
  function Tally(log: seq<Event>, n: NodeId, kind: Kind): nat {
    if log == [] then 0
    else Tally(log[..|log| - 1], n, kind) + if Is(log[|log| - 1], n, kind) then 1 else 0
  }

  lemma {:induction false} TallyAppend(log: seq<Event>, ext: seq<Event>, n: NodeId, kind: Kind)
    ensures Tally(log + ext, n, kind) == Tally(log, n, kind) + Tally(ext, n, kind)
  {
    if ext == [] {
      assert log + ext == log;
    } else {
      var front := ext[..|ext| - 1];
      TallyAppend(log, front, n, kind);
      assert (log + ext)[..|log + ext| - 1] == log + front;
    }
  }

  lemma {:induction false} TallyNone(log: seq<Event>, n: NodeId, kind: Kind)
    requires forall i | 0 <= i < |log| :: !Is(log[i], n, kind)
    ensures Tally(log, n, kind) == 0
  {
    if log != [] {
      TallyNone(log[..|log| - 1], n, kind);
    }
  }

  lemma {:induction false} TallyAttempts(log: seq<Event>, n: NodeId)
    requires forall i | 0 <= i < |log| :: log[i].Attempted? && log[i].node == n
    ensures Tally(log, n, AnyAttempt) == |log|
  {
    if log != [] {
      TallyAttempts(log[..|log| - 1], n);
    }
  }

  ghost predicate Tallied(t: Template, c: Core, n: NodeId) {
    && Tally(c.log, n, GoodAttempt) == (if n in c.run.completed then 1 else 0)
    && (n !in c.run.completed && n !in c.run.failed ==> Tally(c.log, n, AnyAttempt) == 0)
    && Tally(c.log, n, Compensation) <= (if n in c.run.failed then 1 else 0)
    && (HasNode(t, n) ==> Tally(c.log, n, AnyAttempt) <= AttemptLimit(NodeOf(t, n)))
  }

  // ----- one series of attempts -----

  lemma {:induction false} ScriptIsShort(node: Node, outcomes: seq<Outcome>)
    requires RetryScript(node, outcomes)
    ensures 1 <= |outcomes| <= AttemptLimit(node)
  {
    if |outcomes| > 1 {
      assert GoesOn(node, outcomes[..|outcomes| - 1]);
    }
  }

  lemma {:induction false} SeriesTally(node: Node, level: ApprovalLevel, outcomes: seq<Outcome>, m: NodeId)
    requires RetryScript(node, outcomes)
    ensures var log := AttemptLog(node.id, level, outcomes);
            && Tally(log, m, Compensation) == 0
            && (m != node.id ==> Tally(log, m, AnyAttempt) == Tally(log, m, GoodAttempt) == 0)
            && (m == node.id ==> Tally(log, m, AnyAttempt) == |outcomes|)
            && (m == node.id ==> Tally(log, m, GoodAttempt) == if outcomes[|outcomes| - 1].Ok? then 1 else 0)
  {
    var log := AttemptLog(node.id, level, outcomes);
    TallyNone(log, m, Compensation);
    if m != node.id {
      TallyNone(log, m, AnyAttempt);
      TallyNone(log, m, GoodAttempt);
    } else {
      TallyAttempts(log, m);
      var front := log[..|log| - 1];
      forall i | 0 <= i < |front| ensures !Is(front[i], m, GoodAttempt) {
        CampaignGating.OnlyTheLastSucceeds(node, outcomes, i);
      }
      TallyNone(front, m, GoodAttempt);
    }
  }

  /** What one dispatch adds to the ledger, counted. */
  lemma {:induction false} DispatchAdds(c: Core, node: Node, level: ApprovalLevel, outcomes: seq<Outcome>, m: NodeId)
    requires RetryScript(node, outcomes)
    ensures var d, ok := Dispatch(c, node, level, outcomes), outcomes[|outcomes| - 1].Ok?;
            && Tally(d.log, m, GoodAttempt) == Tally(c.log, m, GoodAttempt) + (if m == node.id && ok then 1 else 0)
            && Tally(d.log, m, AnyAttempt) == Tally(c.log, m, AnyAttempt) + (if m == node.id then |outcomes| else 0)
            && Tally(d.log, m, Compensation)
               == Tally(c.log, m, Compensation) + (if m == node.id && !ok && Compensates(node) then 1 else 0)
  {
    var ok := outcomes[|outcomes| - 1].Ok?;
    var series := AttemptLog(node.id, level, outcomes);
    var tail := if !ok && Compensates(node) then [Compensated(node.id)] else [];
    assert Dispatch(c, node, level, outcomes).log == c.log + series + tail;
    SeriesTally(node, level, outcomes, m);
    TallyThree(c.log, series, tail, m, GoodAttempt);
    TallyThree(c.log, series, tail, m, AnyAttempt);
    TallyThree(c.log, series, tail, m, Compensation);
  }

  /** The last part holds at most one entry. */
  lemma {:induction false} TallyThree(a: seq<Event>, b: seq<Event>, c: seq<Event>, m: NodeId, kind: Kind)
    requires |c| <= 1
    ensures Tally(a + b + c, m, kind)
            == Tally(a, m, kind) + Tally(b, m, kind) + (if c != [] && Is(c[0], m, kind) then 1 else 0)
  {
    TallyAppend(a + b, c, m, kind);
    TallyAppend(a, b, m, kind);
    assert c != [] ==> c[..|c| - 1] == [];
  }

  lemma {:induction false} DispatchTallied(t: Template, c: Core, node: Node, level: ApprovalLevel,
                                           outcomes: seq<Outcome>, m: NodeId)
    requires HasNode(t, node.id) && NodeOf(t, node.id) == node
    requires InNoBucket(c.run, node.id) && RetryScript(node, outcomes)
    requires Tallied(t, c, m)
    ensures Tallied(t, Dispatch(c, node, level, outcomes), m)
  {
    var d := Dispatch(c, node, level, outcomes);
    DispatchAdds(c, node, level, outcomes, m);
    ScriptIsShort(node, outcomes);
    UnmarkAbsent(c.run.failed, node.id);
    var ok := outcomes[|outcomes| - 1].Ok?;
    assert d.run.completed == AppendIf(c.run.completed, node.id, ok);
    assert d.run.failed == AppendIf(c.run.failed, node.id, !ok);
  }

  // ----- everything else leaves the counts alone -----

  /** No attempt and no compensation is logged, and the two final buckets stay. */
  ghost predicate Idle(c: Core, d: Core) {
    && c.log <= d.log
    && (forall i | |c.log| <= i < |d.log| :: !d.log[i].Attempted? && !d.log[i].Compensated?)
    && d.run.completed == c.run.completed && d.run.failed == c.run.failed
  }

  lemma {:induction false} IdleTallied(t: Template, c: Core, d: Core, m: NodeId)
    requires Idle(c, d) && Tallied(t, c, m)
    ensures Tallied(t, d, m)
  {
    var ext := d.log[|c.log|..];
    assert d.log == c.log + ext;
    forall kind ensures Tally(d.log, m, kind) == Tally(c.log, m, kind) {
      TallyNone(ext, m, kind);
      TallyAppend(c.log, ext, m, kind);
    }
  }

  lemma {:induction false} PerformTallied(t: Template, c: Core, node: Node, minted: Option<ApprovalId>,
                                          outcomes: seq<Outcome>, m: NodeId)
    requires HasNode(t, node.id) && NodeOf(t, node.id) == node
    requires InNoBucket(c.run, node.id)
    requires Dispatches(c, node) ==> RetryScript(node, outcomes)
    requires Tallied(t, c, m)
    ensures Tallied(t, Perform(c, node, minted, outcomes), m)
  {
    var n := node.id;
    var level := ResolveLevel(node, c.run.ctx.overrides);
    var approval := StepOf(c.run, n).approval;
    if Unsafe(node) || (level != NoApproval && approval.None?) {
      IdleTallied(t, c, Perform(c, node, minted, outcomes), m);
    } else if level == NoApproval {
      DispatchTallied(t, c, node, level, outcomes, m);
    } else {
      var d := ReadGate(c, n, approval.value);
      IdleTallied(t, c, d, m);
      if Satisfied(c.rows, approval) {
        DispatchTallied(t, d, node, level, outcomes, m);
      } else {
        IdleTallied(t, d, Pause(d, n), m);
      }
    }
  }

  lemma {:induction false} ExecuteTallied(t: Template, w: World, a: Action, m: NodeId)
    requires PassSound(t, w) && Enabled(t, w, a) && a.Execute? && Tallied(t, w.core, m)
    ensures Tallied(t, Perform(w.core, NodeOf(t, w.pass[0]), a.minted, a.outcomes), m)
  {
    var n := w.pass[0];
    InExcluded(w.core.run, n);
    CampaignGating.FoundNode(t, n);
    PerformTallied(t, w.core, NodeOf(t, n), a.minted, a.outcomes, m);
  }

  lemma {:induction false} OthersAreIdle(t: Template, w: World, a: Action)
    requires Enabled(t, w, a) && !a.Execute?
    ensures Idle(w.core, Next(t, w, a).core)
  {
  }

  lemma {:induction false} ActionTallied(t: Template, w: World, a: Action, m: NodeId)
    requires PassSound(t, w) && Enabled(t, w, a) && Tallied(t, w.core, m)
    ensures Tallied(t, Next(t, w, a).core, m)
  {
    if a.Execute? {
      ExecuteTallied(t, w, a, m);
    } else {
      OthersAreIdle(t, w, a);
      IdleTallied(t, w.core, Next(t, w, a).core, m);
    }
  }

  lemma {:induction false} HistoryTallied(t: Template, origin: World, acts: seq<Action>, m: NodeId)
    requires History(t, origin, acts)
    ensures Tallied(t, Replay(t, origin, acts).core, m)
  {
    if acts != [] {
      var before := acts[..|acts| - 1];
      HistoryTallied(t, origin, before, m);
      HistorySound(t, origin, before);
      ActionTallied(t, Replay(t, origin, before), acts[|acts| - 1], m);
    } else {
      var log := origin.core.log;
      forall kind ensures Tally(log, m, kind) == 0 {
        TallyNone(log, m, kind);
      }
    }
  }

  /** Over any history a node is dispatched successfully at most once, tried at
      most max_attempts times (at least one), and compensated at most once and
      only if it failed; it is completed exactly when it succeeded. */
  lemma {:induction false} DispatchBound(t: Template, origin: World, acts: seq<Action>, w: World, n: NodeId)
    requires History(t, origin, acts) && w == Replay(t, origin, acts)
    requires HasNode(t, n)
    ensures Tally(w.core.log, n, GoodAttempt) <= 1
    ensures Tally(w.core.log, n, GoodAttempt) == 1 <==> n in w.core.run.completed
    ensures Tally(w.core.log, n, AnyAttempt) <= AttemptLimit(NodeOf(t, n))
    ensures Tally(w.core.log, n, Compensation) <= 1
    ensures Tally(w.core.log, n, Compensation) == 1 ==> n in w.core.run.failed && n !in w.core.run.completed
  {
    HistoryTallied(t, origin, acts, n);
    HistorySound(t, origin, acts);
  }
}
