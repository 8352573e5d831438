/** Decisions on approval requests are final: each request is decided at most
    once, and a node whose request was refused is never dispatched under a gate. */
module CampaignRefusals {
  import opened Basics
  import opened CampaignModel
  import opened CampaignSemantics
  import opened CampaignGating

  /** The queue still says what the ledger says was decided. */
  ghost predicate DecisionsStand(c: Core) {
    forall j | 0 <= j < |c.log| && c.log[j].Decided? ::
      && c.log[j].verdict != Pending
      && c.log[j].id in c.rows && c.rows[c.log[j].id].status == c.log[j].verdict
  }

  ghost predicate DecidedOnce(log: seq<Event>) {
    forall i, j | 0 <= i < j < |log| && log[i].Decided? && log[j].Decided? :: log[i].id != log[j].id
  }

  /** c grows to d without a decision. */
  ghost predicate Undeciding(c: Core, d: Core) {
    && c.log <= d.log
    && (forall i | |c.log| <= i < |d.log| :: !d.log[i].Decided?)
    && (forall id | id in c.rows :: id in d.rows && d.rows[id].status == c.rows[id].status)
  }

  lemma {:induction false} UndecidingTwice(c: Core, d: Core, e: Core)
    requires Undeciding(c, d) && Undeciding(d, e)
    ensures Undeciding(c, e)
  {
  }

  lemma {:induction false} UndecidingStands(c: Core, d: Core)
    requires DecisionsStand(c) && DecidedOnce(c.log) && Undeciding(c, d)
    ensures DecisionsStand(d) && DecidedOnce(d.log)
  {
    forall j | 0 <= j < |d.log| && d.log[j].Decided? ensures j < |c.log| && c.log[j] == d.log[j] {
    }
  }

  lemma {:induction false} DecideStands(c: Core, id: ApprovalId, verdict: Verdict)
    requires DecisionsStand(c) && DecidedOnce(c.log)
    requires id in c.rows && c.rows[id].status == Pending && verdict != Pending
    ensures DecisionsStand(Decide(c, id, verdict)) && DecidedOnce(Decide(c, id, verdict).log)
  {
  }

  lemma {:induction false} DispatchDecidesNothing(c: Core, node: Node, level: ApprovalLevel, outcomes: seq<Outcome>)
    ensures Undeciding(c, Dispatch(c, node, level, outcomes))
  {
  }

  lemma {:induction false} PerformDecidesNothing(c: Core, node: Node, minted: Option<ApprovalId>,
                                                 outcomes: seq<Outcome>)
    requires minted.Some? ==> minted.value !in c.rows
    ensures Undeciding(c, Perform(c, node, minted, outcomes))
  {
    var level := ResolveLevel(node, c.run.ctx.overrides);
    var approval := StepOf(c.run, node.id).approval;
    if Dispatches(c, node) {
      if level == NoApproval {
        DispatchDecidesNothing(c, node, level, outcomes);
      } else {
        GatedDispatchDecidesNothing(c, node, approval.value, level, outcomes);
      }
    } else {
      UndispatchedDecidesNothing(c, node, minted, outcomes);
    }
  }

  lemma {:induction false} GatedDispatchDecidesNothing(
    c: Core, node: Node, id: ApprovalId, level: ApprovalLevel, outcomes: seq<Outcome>)
    ensures Undeciding(c, Dispatch(ReadGate(c, node.id, id), node, level, outcomes))
  {
    var d := ReadGate(c, node.id, id);
    DispatchDecidesNothing(d, node, level, outcomes);
    UndecidingTwice(c, d, Dispatch(d, node, level, outcomes));
  }

  lemma {:induction false} UndispatchedDecidesNothing(c: Core, node: Node, minted: Option<ApprovalId>,
                                                      outcomes: seq<Outcome>)
    requires !Dispatches(c, node) && (minted.Some? ==> minted.value !in c.rows)
    ensures Undeciding(c, Perform(c, node, minted, outcomes))
  {
  }

  lemma {:induction false} ApproveStands(c: Core, id: ApprovalId, node: Option<NodeId>)
    requires DecisionsStand(c) && DecidedOnce(c.log) && id in c.rows && c.rows[id].status == Pending
    ensures var d := Approve(c, id, node); DecisionsStand(d) && DecidedOnce(d.log)
  {
    DecideStands(c, id, Approved);
    UndecidingStands(Decide(c, id, Approved), Approve(c, id, node));
  }

  lemma {:induction false} RejectStands(t: Template, c: Core, id: ApprovalId, node: Option<NodeId>)
    requires DecisionsStand(c) && DecidedOnce(c.log) && id in c.rows && c.rows[id].status == Pending
    ensures var d := Reject(t, c, id, node); DecisionsStand(d) && DecidedOnce(d.log)
  {
    DecideStands(c, id, Rejected);
    UndecidingStands(Decide(c, id, Rejected), Reject(t, c, id, node));
  }

  predicate Decides(a: Action) {
    a.ApproveNode? || a.RejectNode? || a.DecidedElsewhere?
  }

  lemma {:induction false} OthersDecideNothing(t: Template, w: World, a: Action)
    requires Enabled(t, w, a) && !Decides(a) && !a.Execute?
    ensures Undeciding(w.core, Next(t, w, a).core)
  {
  }

  lemma {:induction false} ActionStands(t: Template, w: World, a: Action)
    requires DecisionsStand(w.core) && DecidedOnce(w.core.log) && Enabled(t, w, a)
    ensures DecisionsStand(Next(t, w, a).core) && DecidedOnce(Next(t, w, a).core.log)
  {
    match a
    case ApproveNode(id, node) => ApproveStands(w.core, id, node);
    case RejectNode(id, node) => RejectStands(t, w.core, id, node);
    case DecidedElsewhere(id, verdict) => DecideStands(w.core, id, verdict);
    case Execute(minted, outcomes) =>
      PerformDecidesNothing(w.core, NodeOf(t, w.pass[0]), minted, outcomes);
      UndecidingStands(w.core, Next(t, w, a).core);
    case _ =>
      OthersDecideNothing(t, w, a);
      UndecidingStands(w.core, Next(t, w, a).core);
  }

  /** In every history each request is decided at most once, and stays so. */
  lemma {:induction false} DecisionsAreFinal(t: Template, origin: World, acts: seq<Action>)
    requires History(t, origin, acts)
    ensures DecisionsStand(Replay(t, origin, acts).core)
    ensures DecidedOnce(Replay(t, origin, acts).core.log)
  {
    if acts != [] {
      var before := acts[..|acts| - 1];
      DecisionsAreFinal(t, origin, before);
      ActionStands(t, Replay(t, origin, before), acts[|acts| - 1]);
    }
  }

  /** Entry k asked for an approval and entry j refused it. */
  ghost predicate Refused(log: seq<Event>, k: nat, j: nat) {
    && k < |log| && log[k].Minted?
    && j < |log| && log[j].Decided? && log[j].id == log[k].id && log[j].verdict != Approved
  }

  /** Once a node's request was rejected or has expired, every attempt on it, in
      the whole history, was or is made under no gate at all. */
  lemma {:induction false} RefusalIsFinal(
    t: Template, origin: World, acts: seq<Action>, w: World, k: nat, j: nat, i: nat)
    requires History(t, origin, acts) && w == Replay(t, origin, acts)
    requires Refused(w.core.log, k, j)
    requires i < |w.core.log| && w.core.log[i].Attempted? && w.core.log[i].node == w.core.log[k].node
    ensures w.core.log[i].level == NoApproval
  {
    DecisionsAreFinal(t, origin, acts);
    forall m | 0 <= m < |w.core.log| && w.core.log[m].Minted? && w.core.log[m].node == w.core.log[k].node
      ensures m == k
    {
      OneRequestPerNode(t, origin, acts, w, m, k);
    }
    RefusedNeverPasses(w.core.log, k, j, i);
    if w.core.log[i].level != NoApproval {
      GatedDispatch(t, origin, acts, w, i);
    }
  }

  lemma {:induction false} RefusedNeverPasses(log: seq<Event>, k: nat, j: nat, i: nat)
    requires DecidedOnce(log) && Refused(log, k, j)
    requires forall m | 0 <= m < |log| && log[m].Minted? && log[m].node == log[k].node :: m == k
    requires i < |log| && log[i].Attempted? && log[i].node == log[k].node
    ensures !PassedTheGate(log, i)
  {
    if PassedTheGate(log, i) {
      var id := log[i - log[i].attempt].id;
      var k2, j2 :| 0 <= k2 < j2 < i && log[k2] == Minted(id, log[i].node) && log[j2] == Decided(id, Approved);
      assert false;
    }
  }

  /** So a high-risk or unclassified node whose request was refused is never
      dispatched, whatever is decided, resumed or re-aimed later. */
  lemma {:induction false} RefusedHighRiskNeverRuns(
    t: Template, origin: World, acts: seq<Action>, w: World, k: nat, j: nat)
    requires History(t, origin, acts) && w == Replay(t, origin, acts)
    requires Refused(w.core.log, k, j)
    requires HasNode(t, w.core.log[k].node) && HighRisk(NodeOf(t, w.core.log[k].node).kind)
    ensures forall i | 0 <= i < |w.core.log| && w.core.log[i].Attempted? :: w.core.log[i].node != w.core.log[k].node
  {
    forall i | 0 <= i < |w.core.log| && w.core.log[i].Attempted?
      ensures w.core.log[i].node != w.core.log[k].node
    {
      if w.core.log[i].node == w.core.log[k].node {
        HistoryCausal(t, origin, acts);
        HighRiskIsGated(t, w.core.log, i);
        RefusalIsFinal(t, origin, acts, w, k, j, i);
      }
    }
  }
}
