/** The declarative vocabulary of a campaign: nodes, edges, templates, and the
    governance tables that decide which nodes need somebody's yes. */
module CampaignModel {
  import opened Basics
  import opened Digraph

  type NodeId = string
  type ApprovalId = string

  datatype CampaignState =
    | Draft | Ready | Running | Paused | Blocked | NeedsApproval | Completed | Failed | Cancelled

  datatype NodeStatus =
    | NodePending | NodeRunning | NodeCompleted | NodeBlocked | NodeFailed | NodeNeedsApproval

  datatype ApprovalLevel = NoApproval | Operator | Client | Governance

  datatype RollbackMode = LeaveFailed | Halt | Compensate

  /** The node-type vocabulary; any other name is Unrecognized. */
  datatype NodeType =
    | ArtifactIngest | SeoAudit | AudienceDiscovery | FunnelPlan | ContentGeneration
    | SeoGeoContent | MetricsCollection | PublicAction | ExternalOutreach | PaidAds
    | Backlink | WebsiteEdit | MassMessage | ReviewRequest | Reporting
    | Unrecognized(name: string)

  datatype Node = Node(
    id: NodeId,
    kind: NodeType,
    approvalRequired: ApprovalLevel,
    maxAttempts: int,
    retryOn: seq<string>,
    rollback: RollbackMode,
    compensation: Option<string>)

  datatype Condition = Condition(field: string, op: string, value: string)

  datatype Edge = Edge(from: NodeId, to: NodeId, condition: Option<Condition>)

  /** What node results may change: KPIs, free-form values, and the vertical's
      approval overrides, which live in the same mutable mapping. */
  datatype Context = Context(
    kpis: map<string, real>,
    values: map<string, string>,
    overrides: map<NodeType, ApprovalLevel>)

  /** `evaluate` stands for the closed operator set of conditional edges; it is
      total because a broken predicate counts as false. */
  datatype Template = Template(
    nodes: seq<Node>,
    edges: seq<Edge>,
    evaluate: (Condition, Context) -> bool)

  function Ids(nodes: seq<Node>): seq<NodeId> {
    seq(|nodes|, i requires 0 <= i < |nodes| => nodes[i].id)
  }

  ghost function EdgeSet(t: Template): set<(NodeId, NodeId)> {
    set e | e in t.edges :: (e.from, e.to)
  }

  /** What loading a template guarantees: unique ids, at least one node, and
      edges between known nodes.  Multi-edges and self-loops are allowed. */
  ghost predicate WellFormed(t: Template) {
    && Distinct(Ids(t.nodes))
    && t.nodes != []
    && forall e | e in t.edges :: e.from in Ids(t.nodes) && e.to in Ids(t.nodes)
  }

  predicate HasNode(t: Template, n: NodeId) {
    n in Ids(t.nodes)
  }

  function FindNode(nodes: seq<Node>, n: NodeId): (node: Node)
    requires n in Ids(nodes)
    ensures node in nodes && node.id == n
  {
    if nodes[0].id == n then nodes[0] else
      assert forall i | 1 <= i < |nodes| :: Ids(nodes)[i] == Ids(nodes[1..])[i - 1];
      FindNode(nodes[1..], n)
  }

  function NodeOf(t: Template, n: NodeId): Node
    requires HasNode(t, n)
  {
    FindNode(t.nodes, n)
  }

  // ----- registry and approval levels -----

  datatype NodeTypeSpec = NodeTypeSpec(highRisk: bool, defaultApproval: ApprovalLevel)

  function SpecFor(kind: NodeType): NodeTypeSpec {
    match kind
    case ArtifactIngest | SeoAudit | AudienceDiscovery | MetricsCollection => NodeTypeSpec(false, NoApproval)
    case FunnelPlan | ContentGeneration | SeoGeoContent | Reporting => NodeTypeSpec(false, Operator)
    case PublicAction | MassMessage => NodeTypeSpec(true, Client)
    case Backlink => NodeTypeSpec(true, Governance)
    case ExternalOutreach | PaidAds | WebsiteEdit | ReviewRequest => NodeTypeSpec(true, Operator)
    case Unrecognized(_) => NodeTypeSpec(true, Operator)
  }

  predicate HighRisk(kind: NodeType) {
    SpecFor(kind).highRisk
  }

  function Strictness(level: ApprovalLevel): nat {
    match level
    case NoApproval => 0
    case Operator => 1
    case Client => 2
    case Governance => 3
  }

  function MaxLevel(a: ApprovalLevel, b: ApprovalLevel): ApprovalLevel {
    if Strictness(a) >= Strictness(b) then a else b
  }

  /** The strictest of the declared level, the node-type default and the
      vertical's override for the node type. */
  function ResolveLevel(node: Node, overrides: map<NodeType, ApprovalLevel>): (level: ApprovalLevel)
    ensures Strictness(level) >= Strictness(node.approvalRequired)
    ensures Strictness(level) >= Strictness(SpecFor(node.kind).defaultApproval)
    ensures node.kind in overrides ==> Strictness(level) >= Strictness(overrides[node.kind])
    ensures level in {node.approvalRequired, SpecFor(node.kind).defaultApproval}
            || (node.kind in overrides && level == overrides[node.kind])
  {
    var floor := MaxLevel(node.approvalRequired, SpecFor(node.kind).defaultApproval);
    if node.kind in overrides then MaxLevel(floor, overrides[node.kind]) else floor
  }

  /** No override can make a high-risk or unclassified node run ungated. */
  lemma {:induction false} HighRiskIsAlwaysGated(node: Node, overrides: map<NodeType, ApprovalLevel>)
    requires HighRisk(node.kind)
    ensures ResolveLevel(node, overrides) != NoApproval
  {
  }
}
