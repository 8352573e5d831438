/** Choosing which production streams to run: greedy selection under a target, a
    monitoring budget and a spend ceiling, and the tick that acts on it. */
module CampaignPortfolio {
  import opened Basics
  import opened Ordering

  /** A stream the portfolio may run.  `eligible` is what its eligibility check
      returned; None means the check itself failed. */
  datatype Stream = Stream(
    id: string, priority: real, monitorCost: real, eligible: Option<bool>,
    tier: string, estCost: real, defaultCap: int)

  datatype SkipReason =
    | Ineligible | TierBlocked(tier: string) | OverSpend | TargetMet | Capacity | OverMonitor

  /** None stands for no financial gating. */
  datatype Limits = Limits(
    monitorBudget: real, maxConcurrent: int, target: int, tiers: Option<set<string>>, spend: Option<real>)

  datatype Choice = Choice(
    selected: seq<Stream>, skipped: seq<(string, SkipReason)>, monitorUsed: real, spendUsed: real)

  const NOTHING_CHOSEN := Choice([], [], 0.0, 0.0)

  // ----- ranking -----

  /** Higher priority first, then cheaper to monitor, then by id. */
  predicate RanksBefore(a: Stream, b: Stream) {
    a.priority > b.priority
    || (a.priority == b.priority
        && (a.monitorCost < b.monitorCost || (a.monitorCost == b.monitorCost && StrictlyBefore(a.id, b.id))))
  }

  function EligibleOnes(streams: seq<Stream>): seq<Stream> {
    if streams == [] then [] else
      var last := streams[|streams| - 1];
      EligibleOnes(streams[..|streams| - 1]) + if last.eligible == Some(true) then [last] else []
  }

  function IneligibleOnes(streams: seq<Stream>): seq<(string, SkipReason)> {
    if streams == [] then [] else
      var last := streams[|streams| - 1];
      IneligibleOnes(streams[..|streams| - 1]) + if last.eligible == Some(true) then [] else [(last.id, Ineligible)]
  }

  function Ranked(streams: seq<Stream>): seq<Stream> {
    Sort(EligibleOnes(streams), RanksBefore)
  }

  // ----- the greedy pass -----

  function Ceiling(l: Limits): int {
    if l.target <= l.maxConcurrent then l.target else l.maxConcurrent
  }

  predicate TierAllowed(l: Limits, c: Stream) {
    l.tiers.Some? ==> c.tier in l.tiers.value
  }

  predicate Affordable(l: Limits, used: real, c: Stream) {
    l.spend.Some? ==> used + c.estCost <= l.spend.value
  }

  predicate Monitorable(l: Limits, used: real, c: Stream) {
    used + c.monitorCost <= l.monitorBudget
  }

  /** Why c is passed over at this point; None means it is taken. */
  function Verdict(l: Limits, d: Choice, c: Stream): Option<SkipReason> {
    if !TierAllowed(l, c) then Some(TierBlocked(c.tier))
    else if !Affordable(l, d.spendUsed, c) then Some(OverSpend)
    else if |d.selected| >= Ceiling(l) then Some(if Ceiling(l) >= l.target then TargetMet else Capacity)
    else if !Monitorable(l, d.monitorUsed, c) then Some(OverMonitor)
    else None
  }

  function Consider(l: Limits, d: Choice, c: Stream): Choice {
    match Verdict(l, d, c)
    case Some(why) => d.(skipped := d.skipped + [(c.id, why)])
    case None => Choice(d.selected + [c], d.skipped, d.monitorUsed + c.monitorCost, d.spendUsed + c.estCost)
  }

  function Greedy(l: Limits, start: Choice, ranked: seq<Stream>, n: nat): Choice
    requires n <= |ranked|
  {
    if n == 0 then start else Consider(l, Greedy(l, start, ranked, n - 1), ranked[n - 1])
  }

  function Select(streams: seq<Stream>, l: Limits): Choice {
    var start := NOTHING_CHOSEN.(skipped := IneligibleOnes(streams));
    Greedy(l, start, Ranked(streams), |Ranked(streams)|)
  }

  method SelectCampaigns(streams: seq<Stream>, l: Limits) returns (d: Choice)
    ensures d == Select(streams, l)
  {
    var eligible, skipped := [], [];
    for i := 0 to |streams|
      invariant eligible == EligibleOnes(streams[..i]) && skipped == IneligibleOnes(streams[..i])
    {
      assert streams[..i + 1][..i] == streams[..i];
      var c := streams[i];
      if c.eligible == Some(true) {
        eligible := eligible + [c];
      } else {
        skipped := skipped + [(c.id, Ineligible)];
      }
    }
    assert streams[..|streams|] == streams;
    var ranked := Sort(eligible, RanksBefore);
    var ceiling := if l.target <= l.maxConcurrent then l.target else l.maxConcurrent;
    var selected, monitorUsed, spendUsed := [], 0.0, 0.0;
    ghost var start := NOTHING_CHOSEN.(skipped := skipped);
    for i := 0 to |ranked|
      invariant Choice(selected, skipped, monitorUsed, spendUsed) == Greedy(l, start, ranked, i)
    {
      var c := ranked[i];
      if l.tiers.Some? && c.tier !in l.tiers.value {
        skipped := skipped + [(c.id, TierBlocked(c.tier))];
        continue;
      }
      if l.spend.Some? && spendUsed + c.estCost > l.spend.value {
        skipped := skipped + [(c.id, OverSpend)];
        continue;
      }
      if |selected| >= ceiling {
        skipped := skipped + [(c.id, if ceiling >= l.target then TargetMet else Capacity)];
        continue;
      }
      if monitorUsed + c.monitorCost > l.monitorBudget {
        skipped := skipped + [(c.id, OverMonitor)];
        continue;
      }
      selected := selected + [c];
      monitorUsed := monitorUsed + c.monitorCost;
      spendUsed := spendUsed + c.estCost;
    }
    d := Choice(selected, skipped, monitorUsed, spendUsed);
  }

  // ----- the limits hold -----

  function MonitorTotal(streams: seq<Stream>): real {
    if streams == [] then 0.0 else MonitorTotal(streams[..|streams| - 1]) + streams[|streams| - 1].monitorCost
  }

  function CostTotal(streams: seq<Stream>): real {
    if streams == [] then 0.0 else CostTotal(streams[..|streams| - 1]) + streams[|streams| - 1].estCost
  }

  ghost predicate WithinLimits(l: Limits, d: Choice) {
    && (|d.selected| == 0 || |d.selected| <= Ceiling(l))
    && d.monitorUsed == MonitorTotal(d.selected) && d.spendUsed == CostTotal(d.selected)
    && (d.selected != [] ==> d.monitorUsed <= l.monitorBudget)
    && (d.selected != [] && l.spend.Some? ==> d.spendUsed <= l.spend.value)
    && (forall c | c in d.selected :: c.eligible == Some(true) && TierAllowed(l, c))
  }

  lemma {:induction false} ConsiderWithinLimits(l: Limits, d: Choice, c: Stream)
    requires WithinLimits(l, d) && c.eligible == Some(true)
    ensures WithinLimits(l, Consider(l, d, c))
  {
    assert (d.selected + [c])[..|d.selected|] == d.selected;
  }

  lemma {:induction false} GreedyWithinLimits(l: Limits, start: Choice, ranked: seq<Stream>, n: nat)
    requires n <= |ranked| && WithinLimits(l, start)
    requires forall c | c in ranked :: c.eligible == Some(true)
    ensures WithinLimits(l, Greedy(l, start, ranked, n))
  {
    if n > 0 {
      GreedyWithinLimits(l, start, ranked, n - 1);
      ConsiderWithinLimits(l, Greedy(l, start, ranked, n - 1), ranked[n - 1]);
    }
  }

  lemma {:induction false} EligibleMembers(streams: seq<Stream>)
    ensures forall c :: c in EligibleOnes(streams) <==> c in streams && c.eligible == Some(true)
  {
    if streams != [] {
      EligibleMembers(streams[..|streams| - 1]);
      assert streams == streams[..|streams| - 1] + [streams[|streams| - 1]];
    }
  }

  lemma {:induction false} RankedMembers(streams: seq<Stream>)
    ensures forall c :: c in Ranked(streams) <==> c in streams && c.eligible == Some(true)
  {
    EligibleMembers(streams);
    SortMembers(EligibleOnes(streams), RanksBefore);
  }

  /** The selection respects the ceiling, both budgets, eligibility and tiers. */
  lemma {:induction false} SelectionWithinLimits(streams: seq<Stream>, l: Limits)
    ensures WithinLimits(l, Select(streams, l))
    ensures forall c | c in Select(streams, l).selected :: c in streams
  {
    RankedMembers(streams);
    var start := NOTHING_CHOSEN.(skipped := IneligibleOnes(streams));
    GreedyWithinLimits(l, start, Ranked(streams), |Ranked(streams)|);
    GreedyGrows(l, start, Ranked(streams), 0, |Ranked(streams)|);
  }

  // ----- nothing that would still fit is left out -----

  lemma {:induction false} GreedyGrows(l: Limits, start: Choice, ranked: seq<Stream>, m: nat, n: nat)
    requires m <= n <= |ranked|
    ensures var x, y := Greedy(l, start, ranked, m), Greedy(l, start, ranked, n);
            && x.selected <= y.selected && x.skipped <= y.skipped
            && (forall c | c in y.selected :: c in x.selected || c in ranked)
            && ((forall c | c in ranked :: c.monitorCost >= 0.0 && c.estCost >= 0.0) ==>
                  x.monitorUsed <= y.monitorUsed && x.spendUsed <= y.spendUsed)
    decreases n - m
  {
    if m < n {
      GreedyGrows(l, start, ranked, m, n - 1);
    }
  }

  /** Maximality: with nonnegative costs, an eligible stream of an allowed tier
      that was not selected would break the target, the monitoring budget or the
      spend ceiling if it were added in the end. */
  lemma {:induction false} SelectionIsMaximal(streams: seq<Stream>, l: Limits, c: Stream)
    requires forall s | s in streams :: s.monitorCost >= 0.0 && s.estCost >= 0.0
    requires c in streams && c.eligible == Some(true) && TierAllowed(l, c)
    requires c !in Select(streams, l).selected
    ensures var d := Select(streams, l);
            |d.selected| >= Ceiling(l) || !Monitorable(l, d.monitorUsed, c) || !Affordable(l, d.spendUsed, c)
  {
    var ranked := Ranked(streams);
    var start := NOTHING_CHOSEN.(skipped := IneligibleOnes(streams));
    RankedMembers(streams);
    var i :| 0 <= i < |ranked| && ranked[i] == c;
    GreedyGrows(l, start, ranked, i, |ranked|);
    if Verdict(l, Greedy(l, start, ranked, i), c).None? {
      TakenIsSelected(l, start, ranked, i);
      assert false;
    }
  }

  lemma {:induction false} TakenIsSelected(l: Limits, start: Choice, ranked: seq<Stream>, i: nat)
    requires i < |ranked| && Verdict(l, Greedy(l, start, ranked, i), ranked[i]).None?
    ensures ranked[i] in Greedy(l, start, ranked, |ranked|).selected
  {
    GreedyGrows(l, start, ranked, i + 1, |ranked|);
    assert ranked[i] in Greedy(l, start, ranked, i + 1).selected;
  }

  // ----- every stream is accounted for -----

  function Named(streams: seq<Stream>, id: string): nat {
    if streams == [] then 0 else
      Named(streams[..|streams| - 1], id) + if streams[|streams| - 1].id == id then 1 else 0
  }

  function NamedSkips(skipped: seq<(string, SkipReason)>, id: string): nat {
    if skipped == [] then 0 else
      NamedSkips(skipped[..|skipped| - 1], id) + if skipped[|skipped| - 1].0 == id then 1 else 0
  }

  /** How often a choice lists the id, as selected or as skipped. */
  function Listed(d: Choice, id: string): nat {
    Named(d.selected, id) + NamedSkips(d.skipped, id)
  }

  lemma {:induction false} NamedAppend(a: seq<Stream>, b: seq<Stream>, id: string)
    ensures Named(a + b, id) == Named(a, id) + Named(b, id)
  {
    if b == [] {
      assert a + b == a;
    } else {
      NamedAppend(a, b[..|b| - 1], id);
      assert (a + b)[..|a + b| - 1] == a + b[..|b| - 1];
    }
  }

  lemma {:induction false} NamedAppendOne(streams: seq<Stream>, c: Stream, id: string)
    ensures Named(streams + [c], id) == Named(streams, id) + if c.id == id then 1 else 0
  {
    assert (streams + [c])[..|streams|] == streams;
  }

  lemma {:induction false} NamedSkipsAppend(skipped: seq<(string, SkipReason)>, x: (string, SkipReason), id: string)
    ensures NamedSkips(skipped + [x], id) == NamedSkips(skipped, id) + if x.0 == id then 1 else 0
  {
    assert (skipped + [x])[..|skipped|] == skipped;
  }

  lemma {:induction false} ConsiderAccounts(l: Limits, d: Choice, c: Stream, id: string)
    ensures Listed(Consider(l, d, c), id) == Listed(d, id) + if c.id == id then 1 else 0
  {
    match Verdict(l, d, c)
    case Some(why) => NamedSkipsAppend(d.skipped, (c.id, why), id);
    case None => NamedAppendOne(d.selected, c, id);
  }

  lemma {:induction false} GreedyAccounts(l: Limits, start: Choice, ranked: seq<Stream>, n: nat, id: string)
    requires n <= |ranked|
    ensures Listed(Greedy(l, start, ranked, n), id) == Listed(start, id) + Named(ranked[..n], id)
  {
    if n > 0 {
      GreedyAccounts(l, start, ranked, n - 1, id);
      assert ranked[..n][..n - 1] == ranked[..n - 1];
      ConsiderAccounts(l, Greedy(l, start, ranked, n - 1), ranked[n - 1], id);
    } else {
      assert ranked[..0] == [];
    }
  }

  lemma {:induction false} SplitAccounts(streams: seq<Stream>, id: string)
    ensures Named(EligibleOnes(streams), id) + NamedSkips(IneligibleOnes(streams), id) == Named(streams, id)
  {
    if streams != [] {
      var front, last := streams[..|streams| - 1], streams[|streams| - 1];
      SplitAccounts(front, id);
      if last.eligible == Some(true) {
        NamedAppendOne(EligibleOnes(front), last, id);
        assert IneligibleOnes(streams) == IneligibleOnes(front);
      } else {
        NamedSkipsAppend(IneligibleOnes(front), (last.id, Ineligible), id);
        assert EligibleOnes(streams) == EligibleOnes(front);
      }
    }
  }

  lemma {:induction false} NamedInsert(x: Stream, s: seq<Stream>, id: string)
    ensures Named(Insert(x, s, RanksBefore), id) == Named([x] + s, id)
  {
    if s != [] && RanksBefore(s[0], x) {
      NamedInsert(x, s[1..], id);
      assert s == [s[0]] + s[1..];
      NamedAppend([x], s, id);
      NamedAppend([x], s[1..], id);
      NamedAppend([s[0]], s[1..], id);
      NamedAppend([s[0]], Insert(x, s[1..], RanksBefore), id);
    }
  }

  lemma {:induction false} NamedSort(s: seq<Stream>, id: string)
    ensures Named(Sort(s, RanksBefore), id) == Named(s, id)
  {
    if s != [] {
      NamedSort(s[1..], id);
      NamedInsert(s[0], Sort(s[1..], RanksBefore), id);
      NamedAppend([s[0]], Sort(s[1..], RanksBefore), id);
      NamedAppend([s[0]], s[1..], id);
      assert s == [s[0]] + s[1..];
    }
  }

  /** Selected plus skipped list each stream exactly as often as it was offered;
      with unique ids, exactly once. */
  lemma {:induction false} EveryStreamIsListedOnce(streams: seq<Stream>, l: Limits, id: string)
    ensures Listed(Select(streams, l), id) == Named(streams, id)
  {
    var ranked := Ranked(streams);
    var start := NOTHING_CHOSEN.(skipped := IneligibleOnes(streams));
    GreedyAccounts(l, start, ranked, |ranked|, id);
    assert ranked[..|ranked|] == ranked;
    NamedSort(EligibleOnes(streams), id);
    SplitAccounts(streams, id);
  }

  // ----- the order of registration does not matter -----

  lemma {:induction false} RankIsWeak()
    ensures WeakOrder(RanksBefore)
  {
    forall x: Stream, y: Stream, z: Stream
      ensures RanksBefore(x, y) ==> !RanksBefore(y, x)
      ensures RanksBefore(x, z) ==> RanksBefore(x, y) || RanksBefore(y, z)
    {
      StringOrder(x.id, y.id, z.id);
    }
  }

  ghost predicate UniqueIds(streams: seq<Stream>) {
    forall x, y | x in streams && y in streams && x.id == y.id :: x == y
  }

  lemma {:induction false} EligibleByMultiset(streams: seq<Stream>, c: Stream)
    ensures multiset(EligibleOnes(streams))[c] == if c.eligible == Some(true) then multiset(streams)[c] else 0
  {
    if streams != [] {
      var front, last := streams[..|streams| - 1], streams[|streams| - 1];
      EligibleByMultiset(front, c);
      assert streams == front + [last];
    }
  }

  /** With unique ids the ranking, and so the selection, the budgets used and the
      reasons given to eligible streams, are the same for every listing order. */
  lemma {:induction false} SelectionIgnoresListingOrder(a: seq<Stream>, b: seq<Stream>, l: Limits)
    requires multiset(a) == multiset(b) && UniqueIds(a)
    ensures Ranked(a) == Ranked(b)
    ensures var x, y := Select(a, l), Select(b, l);
            x.selected == y.selected && x.monitorUsed == y.monitorUsed && x.spendUsed == y.spendUsed
            && |IneligibleOnes(a)| <= |x.skipped| && |IneligibleOnes(b)| <= |y.skipped|
            && x.skipped[|IneligibleOnes(a)|..] == y.skipped[|IneligibleOnes(b)|..]
  {
    forall c ensures multiset(EligibleOnes(a))[c] == multiset(EligibleOnes(b))[c] {
      EligibleByMultiset(a, c);
      EligibleByMultiset(b, c);
    }
    RankIsWeak();
    SortInOrder(EligibleOnes(a), RanksBefore);
    SortInOrder(EligibleOnes(b), RanksBefore);
    RankedMembers(a);
    forall x, y | x in Ranked(a) && y in Ranked(a) && x != y ensures RanksBefore(x, y) || RanksBefore(y, x) {
      StringOrder(x.id, y.id, []);
    }
    OrderedIsUnique(Ranked(a), Ranked(b), RanksBefore);
    GreedyFromEqualStarts(l, NOTHING_CHOSEN.(skipped := IneligibleOnes(a)),
                          NOTHING_CHOSEN.(skipped := IneligibleOnes(b)), Ranked(a), |Ranked(a)|);
  }

  lemma {:induction false} GreedyFromEqualStarts(l: Limits, x: Choice, y: Choice, ranked: seq<Stream>, n: nat)
    requires n <= |ranked| && x.(skipped := []) == y.(skipped := [])
    ensures var p, q := Greedy(l, x, ranked, n), Greedy(l, y, ranked, n);
            && p.(skipped := []) == q.(skipped := [])
            && |p.skipped| >= |x.skipped| && |q.skipped| >= |y.skipped|
            && p.skipped[|x.skipped|..] == q.skipped[|y.skipped|..]
  {
    if n > 0 {
      GreedyFromEqualStarts(l, x, y, ranked, n - 1);
    }
  }

  // ----- what the company can afford -----

  datatype Posture = Conserve | Lean | Invest

  datatype Affordability = Affordability(
    posture: Posture, tiers: set<string>, intensity: real, budget: real, headroom: real)

  function TiersOf(p: Posture): set<string> {
    match p
    case Conserve => {"free"}
    case Lean => {"free", "low"}
    case Invest => {"free", "low", "paid"}
  }

  function FactorOf(p: Posture): real {
    match p
    case Conserve => 0.3
    case Lean => 0.6
    case Invest => 1.0
  }

  function DeriveAffordability(headroom: real, investFloor: real): Affordability {
    var p := if headroom <= 0.0 then Conserve else if headroom < investFloor then Lean else Invest;
    Affordability(p, TiersOf(p), FactorOf(p), if headroom > 0.0 then headroom else 0.0, headroom)
  }

  /** When the financials cannot be read. */
  const CAUTIOUS := Affordability(Lean, TiersOf(Lean), 0.5, 0.0, 0.0)

  // ----- one tick -----

  function CeilOf(x: real): int {
    -((-x).Floor)
  }

  /** Rounding as Python does it: halves go to the even neighbour. */
  function RoundHalfEven(x: real): int {
    var f := x.Floor;
    if x - f as real < 0.5 then f
    else if x - f as real > 0.5 then f + 1
    else if f % 2 == 0 then f else f + 1
  }

  /** The nearest whole number, the even one of two. */
  lemma {:induction false} RoundIsNearest(x: real)
    ensures -0.5 <= RoundHalfEven(x) as real - x <= 0.5
    ensures RoundHalfEven(x) as real - x == 0.5 || RoundHalfEven(x) as real - x == -0.5 ==> RoundHalfEven(x) % 2 == 0
  {
  }

  lemma {:induction false} CeilIsLeast(x: real)
    ensures CeilOf(x) as real - 1.0 < x <= CeilOf(x) as real
  {
  }

  function AtLeast(a: int, b: int): int {
    if a >= b then a else b
  }

  function TargetCount(behindPace: Option<bool>, maxConcurrent: int): int {
    if maxConcurrent <= 0 then 0
    else match behindPace
      case Some(true) => maxConcurrent
      case Some(false) => 1
      case None => AtLeast(1, maxConcurrent / 2)
  }

  /** The wanted count stays within capacity and never falls as pace gets worse. */
  lemma {:induction false} TargetIsClamped(maxConcurrent: int)
    ensures 0 <= TargetCount(Some(false), maxConcurrent) <= TargetCount(None, maxConcurrent)
            <= TargetCount(Some(true), maxConcurrent) == AtLeast(0, maxConcurrent)
  {
  }

  function EffectiveTarget(behindPace: Option<bool>, maxConcurrent: int, a: Option<Affordability>): int {
    var wanted := TargetCount(behindPace, maxConcurrent);
    if a.None? then wanted else
      var afford := AtLeast(0, CeilOf(maxConcurrent as real * a.value.intensity));
      if wanted <= afford then wanted else afford
  }

  function TickLimits(monitorBudget: real, maxConcurrent: int, behindPace: Option<bool>,
                      a: Option<Affordability>): Limits
  {
    Limits(monitorBudget, maxConcurrent, EffectiveTarget(behindPace, maxConcurrent, a),
           if a.None? then None else Some(a.value.tiers),
           if a.None? then None else Some(a.value.budget))
  }

  function ById(streams: seq<Stream>): map<string, Stream> {
    if streams == [] then map[] else
      ById(streams[..|streams| - 1])[streams[|streams| - 1].id := streams[|streams| - 1]]
  }

  lemma {:induction false} ByIdFinds(streams: seq<Stream>)
    ensures forall c | c in streams :: c.id in ById(streams)
    ensures UniqueIds(streams) ==> forall c | c in streams :: ById(streams)[c.id] == c
    ensures forall k | k in ById(streams) :: ById(streams)[k] in streams && ById(streams)[k].id == k
  {
    if streams != [] {
      ByIdFinds(streams[..|streams| - 1]);
      assert streams == streams[..|streams| - 1] + [streams[|streams| - 1]];
    }
  }

  // ----- the streams a tick acts on -----

  /** What a lookup by id finds for a stream: the last one registered under it. */
  function Found(streams: seq<Stream>, c: Stream): Stream {
    if c.id in ById(streams) then ById(streams)[c.id] else c
  }

  function Acted(streams: seq<Stream>, selected: seq<Stream>): seq<Stream> {
    seq(|selected|, i requires 0 <= i < |selected| => Found(streams, selected[i]))
  }

  /** Every stream that may be selected is the last one registered under its id. */
  ghost predicate LastOfTheirIds(streams: seq<Stream>) {
    forall c | c in streams && c.eligible == Some(true) :: Found(streams, c) == c
  }

  lemma {:induction false} UniqueIdsSuffice(streams: seq<Stream>)
    requires UniqueIds(streams)
    ensures LastOfTheirIds(streams)
  {
    ByIdFinds(streams);
  }

  lemma {:induction false} ActsOnSelected(streams: seq<Stream>, l: Limits)
    requires LastOfTheirIds(streams)
    ensures Acted(streams, Select(streams, l).selected) == Select(streams, l).selected
  {
    var selected := Select(streams, l).selected;
    SelectionWithinLimits(streams, l);
    forall i | 0 <= i < |selected| ensures Acted(streams, selected)[i] == selected[i] {
      assert selected[i] in selected;
    }
  }

  function PositiveTotal(streams: seq<Stream>): real {
    if streams == [] then 0.0 else
      var cost := streams[|streams| - 1].monitorCost;
      PositiveTotal(streams[..|streams| - 1]) + if cost > 0.0 then cost else 0.0
  }

  /** A tick behind pace, without financial gating, with room for everything. */
  function Roomy(streams: seq<Stream>): Limits {
    TickLimits(PositiveTotal(Ranked(streams)), |Ranked(streams)|, Some(true), None)
  }

  lemma {:induction false} MonitorWithinPositive(streams: seq<Stream>, n: nat)
    requires n <= |streams|
    ensures MonitorTotal(streams[..n]) <= PositiveTotal(streams)
    decreases |streams|
  {
    if n == |streams| > 0 {
      MonitorWithinPositive(streams[..n - 1], n - 1);
      assert streams[..n] == streams && streams[..n - 1][..n - 1] == streams[..n - 1];
    } else if n < |streams| {
      var front := streams[..|streams| - 1];
      MonitorWithinPositive(front, n);
      assert front[..n] == streams[..n];
    }
  }

  lemma {:induction false} RoomTakesOne(l: Limits, d: Choice, c: Stream)
    requires l.tiers.None? && l.spend.None? && |d.selected| < Ceiling(l) && Monitorable(l, d.monitorUsed, c)
    ensures Consider(l, d, c).selected == d.selected + [c]
    ensures Consider(l, d, c).monitorUsed == d.monitorUsed + c.monitorCost
  {
  }

  lemma {:induction false} RoomTakesAll(l: Limits, start: Choice, ranked: seq<Stream>, n: nat)
    requires n <= |ranked| <= Ceiling(l) && l.tiers.None? && l.spend.None?
    requires start.selected == [] && start.monitorUsed == 0.0
    requires forall k | 0 <= k <= n :: MonitorTotal(ranked[..k]) <= l.monitorBudget
    ensures Greedy(l, start, ranked, n).selected == ranked[..n]
    ensures Greedy(l, start, ranked, n).monitorUsed == MonitorTotal(ranked[..n])
  {
    if n > 0 {
      RoomTakesAll(l, start, ranked, n - 1);
      assert ranked[..n] == ranked[..n - 1] + [ranked[n - 1]] && ranked[..n][..n - 1] == ranked[..n - 1];
      RoomTakesOne(l, Greedy(l, start, ranked, n - 1), ranked[n - 1]);
    }
  }

  lemma {:induction false} RoomySelectsAll(streams: seq<Stream>, c: Stream)
    requires c in streams && c.eligible == Some(true)
    ensures c in Select(streams, Roomy(streams)).selected
  {
    var ranked := Ranked(streams);
    forall k | 0 <= k <= |ranked| ensures MonitorTotal(ranked[..k]) <= PositiveTotal(ranked) {
      MonitorWithinPositive(ranked, k);
    }
    RoomTakesAll(Roomy(streams), NOTHING_CHOSEN.(skipped := IneligibleOnes(streams)), ranked, |ranked|);
    assert ranked[..|ranked|] == ranked;
    RankedMembers(streams);
  }

  /** Whatever the limits, a tick acts on exactly the streams it selected, if and
      only if every eligible stream is the last one registered under its id. */
  lemma {:induction false} ActsOnSelectedExactly(streams: seq<Stream>)
    ensures LastOfTheirIds(streams) <==>
            forall l :: Acted(streams, Select(streams, l).selected) == Select(streams, l).selected
  {
    if LastOfTheirIds(streams) {
      forall l ensures Acted(streams, Select(streams, l).selected) == Select(streams, l).selected {
        ActsOnSelected(streams, l);
      }
    } else {
      var c :| c in streams && c.eligible == Some(true) && Found(streams, c) != c;
      RoomySelectsAll(streams, c);
      var selected := Select(streams, Roomy(streams)).selected;
      var i :| 0 <= i < |selected| && selected[i] == c;
      assert Acted(streams, selected)[i] != selected[i];
    }
  }

  // ----- running the tick -----

  /** How much one pass of a stream may do at an intensity. */
  function CapOf(c: Stream, intensity: real): int {
    AtLeast(1, RoundHalfEven(c.defaultCap as real * intensity))
  }

  function IntensityOf(a: Option<Affordability>): real {
    if a.Some? then a.value.intensity else 1.0
  }

  function StreamsOf(passes: seq<(Stream, int)>): seq<Stream> {
    seq(|passes|, i requires 0 <= i < |passes| => passes[i].0)
  }

  /** Select, then run each selected stream for one bounded pass.  `produce` says
      how much a pass yields; None is a pass that failed, which sinks no other.
      The streams run keep within the tick's count, and within its budget and
      tiers too if each eligible stream is the last of its id. */
  method RunPortfolio(
    streams: seq<Stream>, monitorBudget: real, maxConcurrent: int,
    behindPace: Option<bool>, a: Option<Affordability>, produce: (Stream, int) -> Option<int>)
    returns (d: Choice, actuated: seq<(Stream, int)>, initiated: int)
    ensures d == Select(streams, TickLimits(monitorBudget, maxConcurrent, behindPace, a))
    ensures StreamsOf(actuated) == Acted(streams, d.selected)
    ensures forall i | 0 <= i < |actuated| :: actuated[i].1 == CapOf(actuated[i].0, IntensityOf(a))
    ensures initiated == Initiated(actuated, produce)
    ensures |actuated| <= AtLeast(0, EffectiveTarget(behindPace, maxConcurrent, a))
    ensures a.Some? && LastOfTheirIds(streams) ==>
              && (actuated == [] || CostTotal(StreamsOf(actuated)) <= a.value.budget)
              && forall c | c in StreamsOf(actuated) :: c.tier in a.value.tiers
  {
    var limits := LimitsForTick(monitorBudget, maxConcurrent, behindPace, a);
    d := SelectCampaigns(streams, limits);
    SelectionWithinLimits(streams, limits);
    actuated, initiated := ActuateAll(streams, d.selected, if a.Some? then a.value.intensity else 1.0, produce);
    if LastOfTheirIds(streams) {
      ActsOnSelected(streams, limits);
    }
  }

  method LimitsForTick(monitorBudget: real, maxConcurrent: int, behindPace: Option<bool>, a: Option<Affordability>)
    returns (l: Limits)
    ensures l == TickLimits(monitorBudget, maxConcurrent, behindPace, a)
  {
    var wanted := TargetCount(behindPace, maxConcurrent);
    if a.None? {
      return Limits(monitorBudget, maxConcurrent, wanted, None, None);
    }
    var afford := AtLeast(0, CeilOf(maxConcurrent as real * a.value.intensity));
    var effective := if wanted <= afford then wanted else afford;
    return Limits(monitorBudget, maxConcurrent, effective, Some(a.value.tiers), Some(a.value.budget));
  }

  method ActuateAll(
    streams: seq<Stream>, selected: seq<Stream>, intensity: real, produce: (Stream, int) -> Option<int>)
    returns (actuated: seq<(Stream, int)>, initiated: int)
    requires forall c | c in selected :: c in streams
    ensures StreamsOf(actuated) == Acted(streams, selected)
    ensures forall i | 0 <= i < |actuated| :: actuated[i].1 == CapOf(actuated[i].0, intensity)
    ensures initiated == Initiated(actuated, produce)
  {
    var byId := ById(streams);
    ByIdFinds(streams);
    actuated, initiated := [], 0;
    for i := 0 to |selected|
      invariant |actuated| == i
      invariant forall k | 0 <= k < i :: PassFor(streams, selected[k], intensity, actuated[k])
      invariant initiated == Initiated(actuated, produce)
    {
      assert selected[i] in selected;
      var c := byId[selected[i].id];
      var cap := CapOf(c, intensity);
      assert PassFor(streams, selected[i], intensity, (c, cap));
      assert (actuated + [(c, cap)])[..|actuated|] == actuated;
      actuated := actuated + [(c, cap)];
      if produce(c, cap).Some? {
        initiated := initiated + produce(c, cap).value;
      }
    }
  }

  /** The pass run for a selected stream: on what the lookup finds, under its cap. */
  ghost predicate PassFor(streams: seq<Stream>, chosen: Stream, intensity: real, pass: (Stream, int)) {
    pass.0 == Found(streams, chosen) && pass.1 == CapOf(pass.0, intensity)
  }

  function Initiated(actuated: seq<(Stream, int)>, produce: (Stream, int) -> Option<int>): int {
    if actuated == [] then 0 else
      var last := actuated[|actuated| - 1];
      Initiated(actuated[..|actuated| - 1], produce) +
      if produce(last.0, last.1).Some? then produce(last.0, last.1).value else 0
  }

  lemma {:induction false} TargetIsCapped(behindPace: Option<bool>, maxConcurrent: int, a: Affordability)
    ensures var target := EffectiveTarget(behindPace, maxConcurrent, Some(a));
            0 <= target <= TargetCount(behindPace, maxConcurrent)
            && target <= AtLeast(0, CeilOf(maxConcurrent as real * a.intensity))
  {
  }

  lemma {:induction false} PaidIsForInvesting()
    ensures "paid" !in TiersOf(Conserve) && "paid" !in TiersOf(Lean)
  {
    assert "paid"[0] == 'p' && "free"[0] == 'f' && "low"[0] == 'l';
  }

  lemma {:induction false} SelectionIsSafe(streams: seq<Stream>, l: Limits)
    requires l.target >= 0 && l.spend.Some? && l.spend.value >= 0.0 && l.tiers.Some?
    ensures |Select(streams, l).selected| <= l.target && CostTotal(Select(streams, l).selected) <= l.spend.value
    ensures forall c | c in Select(streams, l).selected :: c.tier in l.tiers.value
  {
    SelectionWithinLimits(streams, l);
  }

  /** The streams RunPortfolio acts on in a tick under this affordability. */
  function TickActs(
    streams: seq<Stream>, monitorBudget: real, maxConcurrent: int, behindPace: Option<bool>, a: Affordability)
    : seq<Stream>
  {
    Acted(streams, Select(streams, TickLimits(monitorBudget, maxConcurrent, behindPace, Some(a))).selected)
  }

  lemma {:induction false} ActedIsSafe(streams: seq<Stream>, l: Limits, acted: seq<Stream>)
    requires LastOfTheirIds(streams) && acted == Acted(streams, Select(streams, l).selected)
    requires l.target >= 0 && l.spend.Some? && l.spend.value >= 0.0 && l.tiers.Some?
    ensures |acted| <= l.target && CostTotal(acted) <= l.spend.value
    ensures forall c | c in acted :: c.tier in l.tiers.value
  {
    ActsOnSelected(streams, l);
    SelectionIsSafe(streams, l);
  }

  /** Spend safety end to end, for the streams a tick runs under derived
      affordability when each eligible stream is the last of its id: they respect
      the pace target and the intensity cap, cost no more than the headroom
      (nothing if there is none), are free under conserve and paid only when
      investing. */
  lemma {:induction false} TickIsSafe(
    streams: seq<Stream>, monitorBudget: real, maxConcurrent: int, behindPace: Option<bool>,
    headroom: real, investFloor: real, a: Affordability, acted: seq<Stream>)
    requires a == DeriveAffordability(headroom, investFloor) && LastOfTheirIds(streams)
    requires acted == TickActs(streams, monitorBudget, maxConcurrent, behindPace, a)
    ensures |acted| <= TargetCount(behindPace, maxConcurrent)
    ensures |acted| <= AtLeast(0, CeilOf(maxConcurrent as real * a.intensity))
    ensures CostTotal(acted) <= (if headroom > 0.0 then headroom else 0.0)
    ensures headroom <= 0.0 ==> forall c | c in acted :: c.tier == "free"
    ensures headroom < investFloor ==> forall c | c in acted :: c.tier != "paid"
  {
    TargetIsCapped(behindPace, maxConcurrent, a);
    ActedIsSafe(streams, TickLimits(monitorBudget, maxConcurrent, behindPace, Some(a)), acted);
    PaidIsForInvesting();
  }

  /** Of two streams, the first eligible and with room, the second not. */
  lemma {:induction false} FirstOfTwoIsSelected(first: Stream, second: Stream, l: Limits)
    requires first.eligible == Some(true) && second.eligible != Some(true)
    requires Ceiling(l) > 0 && TierAllowed(l, first) && Affordable(l, 0.0, first) && Monitorable(l, 0.0, first)
    ensures Select([first, second], l).selected == [first]
  {
    var streams := [first, second];
    assert streams[..1] == [first] && [first][..0] == [] && [first][1..] == [];
    assert EligibleOnes([first]) == [first];
    assert EligibleOnes(streams) == [first];
    assert Sort([first][1..], RanksBefore) == [];
    assert Ranked(streams) == [first];
    var start := NOTHING_CHOSEN.(skipped := IneligibleOnes(streams));
    assert Greedy(l, start, [first], 0) == start;
    assert Verdict(l, start, first).None?;
  }

  /** Without that, a tick may run what it never selected: here, without any
      headroom, a paid and ineligible stream that shares its id with a free one. */
  lemma {:induction false} SharedIdsOverspend(free: Stream, paid: Stream)
    requires free == Stream("x", 1.0, 1.0, Some(true), "free", 0.0, 1)
    requires paid == Stream("x", 1.0, 1.0, Some(false), "paid", 100.0, 1)
    ensures TickActs([free, paid], 3.0, 4, None, DeriveAffordability(0.0, 300.0)) == [paid]
    ensures CostTotal([paid]) == 100.0
  {
    TwelveTenths();
    FirstOfTwoIsSelected(free, paid, TickLimits(3.0, 4, None, Some(DeriveAffordability(0.0, 300.0))));
    LastIsFound(free, paid);
    assert [paid][..0] == [];
  }

  lemma {:induction false} LastIsFound(first: Stream, last: Stream)
    requires first.id == last.id
    ensures Found([first, last], first) == last
  {
    assert [first, last][..1] == [first];
  }

  lemma {:induction false} TwelveTenths()
    ensures CeilOf(4 as real * 0.3) == 2
  {
  }

  /** When the financials cannot be read, a tick spends nothing, runs no paid
      stream and at most half the capacity, rounded up. */
  lemma {:induction false} OutageIsCautious(
    streams: seq<Stream>, monitorBudget: real, maxConcurrent: int, behindPace: Option<bool>, acted: seq<Stream>)
    requires maxConcurrent >= 0 && LastOfTheirIds(streams)
    requires acted == TickActs(streams, monitorBudget, maxConcurrent, behindPace, CAUTIOUS)
    ensures CostTotal(acted) <= 0.0
    ensures forall c | c in acted :: c.tier != "paid"
    ensures |acted| <= (maxConcurrent + 1) / 2
  {
    TargetIsCapped(behindPace, maxConcurrent, CAUTIOUS);
    ActedIsSafe(streams, TickLimits(monitorBudget, maxConcurrent, behindPace, Some(CAUTIOUS)), acted);
    PaidIsForInvesting();
    HalfRoundedUp(maxConcurrent);
  }

  lemma {:induction false} HalfRoundedUp(n: nat)
    ensures CeilOf(n as real * 0.5) == (n + 1) / 2
  {
    var k := (n + 1) / 2;
    assert -(n as real * 0.5) == -(k as real) + (2 * k - n) as real * 0.5;
  }
}
