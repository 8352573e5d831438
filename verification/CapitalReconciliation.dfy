/** Turning bank rows into numbered capital contributions: which rows count, how
    ids are allocated and remembered, and what never changes between runs. */
module CapitalReconciliation {
  import opened Basics
  import opened Ordering

  datatype BankRow = BankRow(
    source: string, category: string, cents: int, description: string, ts: string, xid: string)

  /** One contribution; amounts are cents. */
  datatype Contribution = Contribution(
    entryId: string, date: string, cents: int, xids: seq<string>, isInitial: bool)

  datatype State = State(ids: map<string, string>, nextNumber: nat, initialId: string)

  const FRESH_STATE := State(map[], 1, "")
  const FORMATION := "2026-01-01"

  // ----- strings -----

  function Upper(s: string): string {
    seq(|s|, i requires 0 <= i < |s| => if 'a' <= s[i] <= 'z' then s[i] - 'a' + 'A' else s[i])
  }

  function DateOf(r: BankRow): string {
    if |r.ts| <= 10 then r.ts else r.ts[..10]
  }

  // ----- entry ids -----

  function Digit(d: nat): char
    requires d < 10
  {
    '0' + d as char
  }

  function Digits(n: nat): string {
    if n < 10 then [Digit(n)] else Digits(n / 10) + [Digit(n % 10)]
  }

  function PadTo3(s: string): string
    decreases 3 - |s|
  {
    if |s| >= 3 then s else PadTo3("0" + s)
  }

  function FormatId(n: nat): string {
    "C-2026-" + PadTo3(Digits(n))
  }

  ghost function Value(s: string): int {
    if s == [] then 0 else Value(s[..|s| - 1]) * 10 + (s[|s| - 1] as int - '0' as int)
  }

  lemma {:induction false} ValueOfDigits(n: nat)
    ensures Value(Digits(n)) == n
  {
    if n >= 10 {
      ValueOfDigits(n / 10);
      assert Digits(n)[..|Digits(n)| - 1] == Digits(n / 10);
    } else {
      assert [Digit(n)][..0] == [];
    }
  }

  lemma {:induction false} ValueLeadingZero(s: string)
    ensures Value("0" + s) == Value(s)
  {
    if s == [] {
      assert "0" + s == "0" && "0"[..0] == [];
    } else {
      ValueLeadingZero(s[..|s| - 1]);
      assert ("0" + s)[..|s|] == "0" + s[..|s| - 1];
    }
  }

  lemma {:induction false} ValueOfPadded(s: string)
    ensures Value(PadTo3(s)) == Value(s)
    decreases 3 - |s|
  {
    if |s| < 3 {
      ValueLeadingZero(s);
      ValueOfPadded("0" + s);
    }
  }

  /** Different numbers print as different ids. */
  lemma {:induction false} FormatIdInjective(m: nat, n: nat)
    requires FormatId(m) == FormatId(n)
    ensures m == n
  {
    assert FormatId(m)[7..] == PadTo3(Digits(m)) && FormatId(n)[7..] == PadTo3(Digits(n));
    ValueOfPadded(Digits(m));
    ValueOfPadded(Digits(n));
    ValueOfDigits(m);
    ValueOfDigits(n);
  }

  // ----- which rows count, and in what order -----

  predicate IsFounderContribution(r: BankRow) {
    && r.source == "cash_app_personal_csv"
    && r.category == "business_transfer"
    && r.cents < 0
    && Contains(Upper(r.description), "HUSTLEFORGE")
  }

  predicate PreFormation(r: BankRow) {
    StrictlyBefore(DateOf(r), FORMATION)
  }

  predicate PostFormation(r: BankRow) {
    !PreFormation(r)
  }

  predicate EarlierRow(a: BankRow, b: BankRow) {
    StrictlyBefore(a.ts, b.ts)
  }

  function Filter(rows: seq<BankRow>, keep: BankRow -> bool): seq<BankRow> {
    if rows == [] then [] else
      Filter(rows[..|rows| - 1], keep) + if keep(rows[|rows| - 1]) then [rows[|rows| - 1]] else []
  }

  function Candidates(rows: seq<BankRow>): seq<BankRow> {
    Sort(Filter(rows, IsFounderContribution), EarlierRow)
  }

  function PreRows(rows: seq<BankRow>): seq<BankRow> {
    Filter(Candidates(rows), PreFormation)
  }

  function PostRows(rows: seq<BankRow>): seq<BankRow> {
    Filter(Candidates(rows), PostFormation)
  }

  predicate EarlierEntry(a: Contribution, b: Contribution) {
    StrictlyBefore(a.date, b.date) || (a.date == b.date && StrictlyBefore(a.entryId, b.entryId))
  }

  // ----- allocation -----

  function RowTotal(rows: seq<BankRow>): int {
    if rows == [] then 0 else RowTotal(rows[..|rows| - 1]) - rows[|rows| - 1].cents
  }

  function EntryTotal(entries: seq<Contribution>): int {
    if entries == [] then 0 else EntryTotal(entries[..|entries| - 1]) + entries[|entries| - 1].cents
  }

  function Xids(rows: seq<BankRow>): seq<string> {
    seq(|rows|, i requires 0 <= i < |rows| => rows[i].xid)
  }

  /** Point the first n external ids at one entry. */
  function PointAll(ids: map<string, string>, rows: seq<BankRow>, n: nat, id: string): map<string, string>
    requires n <= |rows|
  {
    if n == 0 then ids else PointAll(ids, rows, n - 1, id)[rows[n - 1].xid := id]
  }

  datatype Books = Books(entries: seq<Contribution>, state: State)

  /** The id of the initial entry in a run that has one. */
  function InitialIn(s: State): string {
    if s.initialId == "" then FormatId(s.nextNumber) else s.initialId
  }

  function FoldInitial(pre: seq<BankRow>, s: State): Books {
    if pre == [] then Books([], s) else
      var id := InitialIn(s);
      var next := if s.initialId == "" then s.nextNumber + 1 else s.nextNumber;
      Books(
        [Contribution(id, FORMATION, RowTotal(pre), Xids(pre), true)],
        State(PointAll(s.ids, pre, |pre|, id), next, id))
  }

  function AllocateRow(b: Books, r: BankRow): Books {
    var known := r.xid in b.state.ids;
    var id := if known then b.state.ids[r.xid] else FormatId(b.state.nextNumber);
    Books(
      b.entries + [Contribution(id, DateOf(r), -r.cents, [r.xid], false)],
      if known then b.state else b.state.(ids := b.state.ids[r.xid := id], nextNumber := b.state.nextNumber + 1))
  }

  function Allocate(b: Books, post: seq<BankRow>, n: nat): Books
    requires n <= |post|
  {
    if n == 0 then b else AllocateRow(Allocate(b, post, n - 1), post[n - 1])
  }

  function Unsorted(rows: seq<BankRow>, s: State): Books {
    Allocate(FoldInitial(PreRows(rows), s), PostRows(rows), |PostRows(rows)|)
  }

  function Assemble(rows: seq<BankRow>, s: State): Books {
    var b := Unsorted(rows, s);
    b.(entries := Sort(b.entries, EarlierEntry))
  }

  /** The reconciler's main loops compute Assemble. */
  method AssembleEntries(bankRows: seq<BankRow>, state: State) returns (entries: seq<Contribution>, updated: State)
    ensures Books(entries, updated) == Assemble(bankRows, state)
  {
    var candidates := Candidates(bankRows);
    var pre := Filter(candidates, PreFormation);
    var post := Filter(candidates, PostFormation);
    var books := FoldPreFormation(pre, state);
    books := AllocateRows(books, post);
    entries := Sort(books.entries, EarlierEntry);
    updated := books.state;
  }

  /** Each post-formation row becomes an entry of its own, under its recorded id
      if it has one. */
  method AllocateRows(start: Books, post: seq<BankRow>) returns (books: Books)
    ensures books == Allocate(start, post, |post|)
  {
    books := start;
    for i := 0 to |post|
      invariant books == Allocate(start, post, i)
    {
      var r, ids, entryId := post[i], books.state.ids, "";
      if r.xid in ids {
        entryId := ids[r.xid];
      } else {
        entryId := FormatId(books.state.nextNumber);
        books := books.(state := books.state.(ids := ids[r.xid := entryId], nextNumber := books.state.nextNumber + 1));
      }
      books := books.(entries := books.entries + [Contribution(entryId, DateOf(r), -r.cents, [r.xid], false)]);
    }
  }

  /** The pre-formation batch becomes one initial entry. */
  method FoldPreFormation(pre: seq<BankRow>, state: State) returns (books: Books)
    ensures books == FoldInitial(pre, state)
  {
    if pre == [] {
      return Books([], state);
    }
    var ids, initialId, nextNumber := state.ids, state.initialId, state.nextNumber;
    if initialId == "" {
      initialId := FormatId(nextNumber);
      nextNumber := nextNumber + 1;
    }
    var total := 0;
    for i := 0 to |pre|
      invariant total == RowTotal(pre[..i])
      invariant ids == PointAll(state.ids, pre, i, initialId)
    {
      assert pre[..i + 1][..i] == pre[..i];
      total := total - pre[i].cents;
      ids := ids[pre[i].xid := initialId];
    }
    assert pre[..|pre|] == pre;
    return Books([Contribution(initialId, FORMATION, total, Xids(pre), true)], State(ids, nextNumber, initialId));
  }

  // ----- conservation -----

  lemma {:induction false} RowTotalAppend(a: seq<BankRow>, b: seq<BankRow>)
    ensures RowTotal(a + b) == RowTotal(a) + RowTotal(b)
  {
    if b == [] {
      assert a + b == a;
    } else {
      RowTotalAppend(a, b[..|b| - 1]);
      assert (a + b)[..|a + b| - 1] == a + b[..|b| - 1];
    }
  }

  lemma {:induction false} EntryTotalAppend(a: seq<Contribution>, b: seq<Contribution>)
    ensures EntryTotal(a + b) == EntryTotal(a) + EntryTotal(b)
  {
    if b == [] {
      assert a + b == a;
    } else {
      EntryTotalAppend(a, b[..|b| - 1]);
      assert (a + b)[..|a + b| - 1] == a + b[..|b| - 1];
    }
  }

  lemma {:induction false} RowTotalOfSort(s: seq<BankRow>, before: (BankRow, BankRow) -> bool)
    ensures RowTotal(Sort(s, before)) == RowTotal(s)
  {
    if s != [] {
      RowTotalOfSort(s[1..], before);
      RowTotalOfInsert(s[0], Sort(s[1..], before), before);
      assert s == [s[0]] + s[1..];
      RowTotalAppend([s[0]], s[1..]);
    }
  }

  lemma {:induction false} RowTotalOfInsert(x: BankRow, s: seq<BankRow>, before: (BankRow, BankRow) -> bool)
    ensures RowTotal(Insert(x, s, before)) == RowTotal([x]) + RowTotal(s)
  {
    if s == [] || !before(s[0], x) {
      RowTotalAppend([x], s);
    } else {
      RowTotalOfInsert(x, s[1..], before);
      RowTotalAppend([s[0]], Insert(x, s[1..], before));
      assert s == [s[0]] + s[1..];
      RowTotalAppend([s[0]], s[1..]);
    }
  }

  lemma {:induction false} EntryTotalOfSort(s: seq<Contribution>)
    ensures EntryTotal(Sort(s, EarlierEntry)) == EntryTotal(s)
  {
    if s != [] {
      EntryTotalOfSort(s[1..]);
      EntryTotalOfInsert(s[0], Sort(s[1..], EarlierEntry));
      assert s == [s[0]] + s[1..];
      EntryTotalAppend([s[0]], s[1..]);
    }
  }

  lemma {:induction false} EntryTotalOfInsert(x: Contribution, s: seq<Contribution>)
    ensures EntryTotal(Insert(x, s, EarlierEntry)) == EntryTotal([x]) + EntryTotal(s)
  {
    if s == [] || !EarlierEntry(s[0], x) {
      EntryTotalAppend([x], s);
    } else {
      EntryTotalOfInsert(x, s[1..]);
      EntryTotalAppend([s[0]], Insert(x, s[1..], EarlierEntry));
      assert s == [s[0]] + s[1..];
      EntryTotalAppend([s[0]], s[1..]);
    }
  }

  lemma {:induction false} SplitTotal(rows: seq<BankRow>)
    ensures RowTotal(Filter(rows, PreFormation)) + RowTotal(Filter(rows, PostFormation)) == RowTotal(rows)
  {
    if rows != [] {
      var front, last := rows[..|rows| - 1], rows[|rows| - 1];
      SplitTotal(front);
      FilteredTotal(rows, PreFormation);
      FilteredTotal(rows, PostFormation);
    }
  }

  lemma {:induction false} FilteredTotal(rows: seq<BankRow>, keep: BankRow -> bool)
    requires rows != []
    ensures var last := rows[|rows| - 1];
            RowTotal(Filter(rows, keep)) ==
              RowTotal(Filter(rows[..|rows| - 1], keep)) - if keep(last) then last.cents else 0
  {
    var kept, shorter := Filter(rows, keep), Filter(rows[..|rows| - 1], keep);
    if keep(rows[|rows| - 1]) {
      assert kept[..|kept| - 1] == shorter;
    } else {
      assert kept == shorter;
    }
  }

  lemma {:induction false} AllocateTotal(b: Books, post: seq<BankRow>, n: nat)
    requires n <= |post|
    ensures EntryTotal(Allocate(b, post, n).entries) == EntryTotal(b.entries) + RowTotal(post[..n])
  {
    if n > 0 {
      AllocateTotal(b, post, n - 1);
      assert post[..n][..n - 1] == post[..n - 1];
      var before, after := Allocate(b, post, n - 1).entries, Allocate(b, post, n).entries;
      assert after[..|after| - 1] == before;
    } else {
      assert post[..0] == [];
    }
  }

  /** Conservation, on every input: the entries add up to what left the founder's
      account. */
  lemma {:induction false} EntriesConserveMoney(rows: seq<BankRow>, s: State)
    ensures EntryTotal(Assemble(rows, s).entries) == RowTotal(Filter(rows, IsFounderContribution))
  {
    var pre, post := PreRows(rows), PostRows(rows);
    var folded := FoldInitial(pre, s);
    AllocateTotal(folded, post, |post|);
    assert post[..|post|] == post;
    EntryTotalOfSort(Unsorted(rows, s).entries);
    SplitTotal(Candidates(rows));
    RowTotalOfSort(Filter(rows, IsFounderContribution), EarlierRow);
    assert EntryTotal(folded.entries) == RowTotal(pre) by {
      assert folded.entries != [] ==> folded.entries[..0] == [];
    }
  }

  // ----- what allocation does to the id map -----

  lemma {:induction false} PointAllFacts(ids: map<string, string>, rows: seq<BankRow>, n: nat, id: string)
    requires n <= |rows|
    ensures var after := PointAll(ids, rows, n, id);
            && after.Keys == ids.Keys + (set i | 0 <= i < n :: rows[i].xid)
            && (forall i | 0 <= i < n :: after[rows[i].xid] == id)
            && (forall x | x in ids ::
              after[x] == ids[x] || (after[x] == id && exists i :: 0 <= i < n && rows[i].xid == x))
            && (forall x | x in after && x !in ids :: after[x] == id)
  {
    if n > 0 {
      PointAllFacts(ids, rows, n - 1, id);
    }
  }

  /** y continues x: entries and ids are only added, numbers only go up. */
  ghost predicate Continues(x: Books, y: Books) {
    && x.entries <= y.entries
    && x.state.ids.Keys <= y.state.ids.Keys
    && (forall k | k in x.state.ids :: y.state.ids[k] == x.state.ids[k])
    && x.state.nextNumber <= y.state.nextNumber
    && y.state.initialId == x.state.initialId
  }

  lemma {:induction false} AllocateRowContinues(x: Books, b: Books, r: BankRow)
    requires Continues(x, b)
    ensures Continues(x, AllocateRow(b, r))
  {
  }

  /** Allocation never changes a recorded id and never runs out of order. */
  lemma {:induction false} AllocateGrows(b: Books, post: seq<BankRow>, m: nat, n: nat)
    requires m <= n <= |post|
    ensures Continues(Allocate(b, post, m), Allocate(b, post, n))
    decreases n - m
  {
    if m < n {
      AllocateGrows(b, post, m, n - 1);
      AllocateRowContinues(Allocate(b, post, m), Allocate(b, post, n - 1), post[n - 1]);
    }
  }

  /** Entry i of the allocated ones carries what the final map says. */
  lemma {:induction false} AllocatedEntry(b: Books, post: seq<BankRow>, i: nat)
    requires i < |post|
    ensures var done := Allocate(b, post, |post|);
            && |done.entries| == |b.entries| + |post|
            && post[i].xid in done.state.ids
            && done.entries[|b.entries| + i]
               == Contribution(done.state.ids[post[i].xid], DateOf(post[i]), -post[i].cents, [post[i].xid], false)
  {
    AllocateSize(b, post, i);
    AllocateSize(b, post, |post|);
    AllocateGrows(b, post, i + 1, |post|);
    var now := Allocate(b, post, i + 1);
    assert now.entries[|b.entries| + i].entryId == now.state.ids[post[i].xid];
  }

  lemma {:induction false} AllocateSize(b: Books, post: seq<BankRow>, n: nat)
    requires n <= |post|
    ensures |Allocate(b, post, n).entries| == |b.entries| + n
    ensures b.entries <= Allocate(b, post, n).entries
  {
    if n > 0 {
      AllocateSize(b, post, n - 1);
    }
  }

  // ----- running again changes nothing -----

  lemma {:induction false} AllKnownAllocates(b: Books, post: seq<BankRow>, n: nat)
    requires n <= |post| && forall i | 0 <= i < n :: post[i].xid in b.state.ids
    ensures Allocate(b, post, n).state == b.state
  {
    if n > 0 {
      AllKnownAllocates(b, post, n - 1);
    }
  }

  lemma {:induction false} PointAllAgain(ids: map<string, string>, rows: seq<BankRow>, n: nat, id: string)
    requires n <= |rows| && forall i | 0 <= i < n :: rows[i].xid in ids && ids[rows[i].xid] == id
    ensures PointAll(ids, rows, n, id) == ids
  {
    if n > 0 {
      PointAllAgain(ids, rows, n - 1, id);
    }
  }

  lemma {:induction false} FoldAgain(rows: seq<BankRow>, s: State)
    ensures var out := Unsorted(rows, s).state;
            FoldInitial(PreRows(rows), out) == Books(FoldInitial(PreRows(rows), s).entries, out)
  {
    var pre, post := PreRows(rows), PostRows(rows);
    var folded := FoldInitial(pre, s);
    AllocateGrows(folded, post, 0, |post|);
    var out := Unsorted(rows, s).state;
    if pre != [] {
      PointAllFacts(s.ids, pre, |pre|, out.initialId);
      PointAllAgain(out.ids, pre, |pre|, out.initialId);
    }
  }

  /** Idempotence, on every input: reconciling the same rows again from the state
      just written yields the same entries and the same state. */
  lemma {:induction false} RerunIsIdempotent(rows: seq<BankRow>, s: State)
    ensures Assemble(rows, Assemble(rows, s).state) == Assemble(rows, s)
  {
    var post := PostRows(rows);
    var first := Unsorted(rows, s);
    var folded := FoldInitial(PreRows(rows), s);
    var refolded := FoldInitial(PreRows(rows), first.state);
    FoldAgain(rows, s);
    forall i | 0 <= i < |post| ensures post[i].xid in first.state.ids {
      AllocatedEntry(folded, post, i);
    }
    AllKnownAllocates(refolded, post, |post|);
    SameEntries(folded, refolded, post);
  }

  /** Allocations that end with the same id map give the same entries. */
  lemma {:induction false} SameEntries(a: Books, b: Books, post: seq<BankRow>)
    requires a.entries == b.entries
    requires Allocate(a, post, |post|).state == Allocate(b, post, |post|).state
    ensures Allocate(a, post, |post|).entries == Allocate(b, post, |post|).entries
  {
    AllocateSize(a, post, |post|);
    AllocateSize(b, post, |post|);
    var x, y := Allocate(a, post, |post|).entries, Allocate(b, post, |post|).entries;
    assert |x| == |y|;
    forall j | 0 <= j < |x| ensures x[j] == y[j] {
      SameEntry(a, b, post, j);
    }
    SameItems(x, y);
  }

  lemma {:induction false} SameItems<T>(x: seq<T>, y: seq<T>)
    requires |x| == |y| && forall j | 0 <= j < |x| :: x[j] == y[j]
    ensures x == y
  {
  }

  lemma {:induction false} SameEntry(a: Books, b: Books, post: seq<BankRow>, j: nat)
    requires a.entries == b.entries && j < |a.entries| + |post|
    requires Allocate(a, post, |post|).state == Allocate(b, post, |post|).state
    ensures var x, y := Allocate(a, post, |post|).entries, Allocate(b, post, |post|).entries;
            j < |x| && j < |y| && x[j] == y[j]
  {
    if j >= |a.entries| {
      SameAllocatedEntry(a, b, post, j - |a.entries|);
    } else {
      AllocateSize(a, post, |post|);
      AllocateSize(b, post, |post|);
    }
  }

  lemma {:induction false} SameAllocatedEntry(a: Books, b: Books, post: seq<BankRow>, i: nat)
    requires a.entries == b.entries && i < |post|
    requires Allocate(a, post, |post|).state == Allocate(b, post, |post|).state
    ensures var x, y, j := Allocate(a, post, |post|).entries, Allocate(b, post, |post|).entries, |a.entries| + i;
            j < |x| && j < |y| && x[j] == y[j]
  {
    AllocatedEntry(a, post, i);
    AllocatedEntry(b, post, i);
  }

  // ----- recorded ids -----

  /** A recorded id changes in a run exactly when its row now counts as
      pre-formation but was recorded under another entry. */
  lemma {:induction false} RecordedIdChangesExactly(rows: seq<BankRow>, s: State, x: string)
    requires x in s.ids
    ensures var out := Assemble(rows, s).state;
            && x in out.ids
            && (out.ids[x] != s.ids[x] <==> x in Xids(PreRows(rows)) && s.ids[x] != InitialIn(s))
  {
    var pre, post := PreRows(rows), PostRows(rows);
    var folded := FoldInitial(pre, s);
    AllocateGrows(folded, post, 0, |post|);
    if pre != [] {
      PointAllFacts(s.ids, pre, |pre|, folded.state.initialId);
      if x in Xids(pre) {
        var i :| 0 <= i < |pre| && Xids(pre)[i] == x;
        assert folded.state.ids[pre[i].xid] == folded.state.initialId;
      } else {
        assert forall i | 0 <= i < |pre| :: Xids(pre)[i] == pre[i].xid;
      }
    }
  }

  // ----- well-formed states and distinct ids -----

  ghost predicate Allocated(s: State, id: string) {
    exists k: nat :: 0 < k < s.nextNumber && id == FormatId(k)
  }

  ghost predicate WellFormed(s: State) {
    && s.nextNumber >= 1
    && (s.initialId == "" || Allocated(s, s.initialId))
    && (forall x | x in s.ids :: Allocated(s, s.ids[x]))
    && (forall x, y | x in s.ids && y in s.ids && x != y && s.ids[x] == s.ids[y] :: s.ids[x] == s.initialId)
  }

  /** The state agrees with these rows: a row's external id is recorded under the
      initial entry exactly if the row is from before formation. */
  ghost predicate Agrees(s: State, rows: seq<BankRow>) {
    && (forall i, j | 0 <= i < |rows| && 0 <= j < |rows| && rows[i].xid == rows[j].xid ::
          PreFormation(rows[i]) <==> PreFormation(rows[j]))
    && (forall i | 0 <= i < |rows| && rows[i].xid in s.ids ::
          PreFormation(rows[i]) <==> s.ids[rows[i].xid] == s.initialId)
  }

  lemma {:induction false} AllocatedLater(s: State, t: State, id: string)
    requires Allocated(s, id) && s.nextNumber <= t.nextNumber
    ensures Allocated(t, id)
  {
    var k: nat :| 0 < k < s.nextNumber && id == FormatId(k);
    assert 0 < k < t.nextNumber;
  }

  /** The next number gives an id nobody has. */
  lemma {:induction false} NextIsNew(s: State, id: string)
    requires Allocated(s, id)
    ensures id != FormatId(s.nextNumber)
  {
    var k: nat :| 0 < k < s.nextNumber && id == FormatId(k);
    if id == FormatId(s.nextNumber) {
      FormatIdInjective(k, s.nextNumber);
      assert false;
    }
  }

  lemma {:induction false} AllocateRowKeeps(b: Books, r: BankRow, all: seq<BankRow>)
    requires WellFormed(b.state) && Agrees(b.state, all) && r in all && !PreFormation(r)
    ensures WellFormed(AllocateRow(b, r).state) && Agrees(AllocateRow(b, r).state, all)
  {
    var s, t := b.state, AllocateRow(b, r).state;
    if r.xid !in s.ids {
      forall id | Allocated(s, id) ensures Allocated(t, id) && id != FormatId(s.nextNumber) {
        AllocatedLater(s, t, id);
        NextIsNew(s, id);
      }
      assert Allocated(t, FormatId(s.nextNumber));
      assert t.initialId != FormatId(s.nextNumber);
    }
  }

  lemma {:induction false} FoldInitialKeeps(pre: seq<BankRow>, s: State, all: seq<BankRow>)
    requires WellFormed(s) && Agrees(s, all) && forall r | r in pre :: r in all && PreFormation(r)
    ensures WellFormed(FoldInitial(pre, s).state) && Agrees(FoldInitial(pre, s).state, all)
  {
    if pre != [] {
      var t := FoldInitial(pre, s).state;
      PointAllFacts(s.ids, pre, |pre|, t.initialId);
      forall id | Allocated(s, id) ensures Allocated(t, id) && id != FormatId(s.nextNumber) {
        AllocatedLater(s, t, id);
        NextIsNew(s, id);
      }
      assert Allocated(t, t.initialId);
      forall i | 0 <= i < |all| && all[i].xid in t.ids
        ensures PreFormation(all[i]) <==> t.ids[all[i].xid] == t.initialId
      {
        if k :| 0 <= k < |pre| && pre[k].xid == all[i].xid {
          assert pre[k] in pre;
          var j :| 0 <= j < |all| && all[j] == pre[k];
        }
      }
    }
  }

  lemma {:induction false} AllocateKeeps(b: Books, post: seq<BankRow>, n: nat, all: seq<BankRow>)
    requires n <= |post| && WellFormed(b.state) && Agrees(b.state, all)
    requires forall r | r in post :: r in all && !PreFormation(r)
    ensures WellFormed(Allocate(b, post, n).state) && Agrees(Allocate(b, post, n).state, all)
  {
    if n > 0 {
      AllocateKeeps(b, post, n - 1, all);
      AllocateRowKeeps(Allocate(b, post, n - 1), post[n - 1], all);
    }
  }

  lemma {:induction false} FilterMembers(rows: seq<BankRow>, keep: BankRow -> bool)
    ensures forall r :: r in Filter(rows, keep) <==> r in rows && keep(r)
  {
    if rows != [] {
      FilterMembers(rows[..|rows| - 1], keep);
      assert rows == rows[..|rows| - 1] + [rows[|rows| - 1]];
    }
  }

  lemma {:induction false} SplitMembers(rows: seq<BankRow>)
    ensures forall r :: r in PreRows(rows) <==> r in rows && IsFounderContribution(r) && PreFormation(r)
    ensures forall r :: r in PostRows(rows) <==> r in rows && IsFounderContribution(r) && !PreFormation(r)
  {
    FilterMembers(rows, IsFounderContribution);
    SortMembers(Filter(rows, IsFounderContribution), EarlierRow);
    FilterMembers(Candidates(rows), PreFormation);
    FilterMembers(Candidates(rows), PostFormation);
  }

  // ----- the listing is an ordered rearrangement -----

  lemma {:induction false} EntryOrderIsWeak()
    ensures WeakOrder(EarlierEntry)
  {
    forall x: Contribution, y: Contribution, z: Contribution
      ensures EarlierEntry(x, y) ==> !EarlierEntry(y, x)
      ensures EarlierEntry(x, z) ==> EarlierEntry(x, y) || EarlierEntry(y, z)
    {
      StringOrder(x.date, y.date, z.date);
      StringOrder(y.date, z.date, x.date);
      StringOrder(x.entryId, y.entryId, z.entryId);
    }
  }

  /** The entries come out ordered by date, then id, and are exactly the ones
      that were put together. */
  lemma {:induction false} EntriesAreInOrder(rows: seq<BankRow>, s: State)
    ensures InOrder(Assemble(rows, s).entries, EarlierEntry)
    ensures multiset(Assemble(rows, s).entries) == multiset(Unsorted(rows, s).entries)
  {
    EntryOrderIsWeak();
    SortInOrder(Unsorted(rows, s).entries, EarlierEntry);
  }

  /** From a well-formed state that agrees with every row there will ever be, one
      run over some of those rows keeps both properties and every recorded id. */
  lemma {:induction false} RunKeepsIds(rows: seq<BankRow>, s: State, all: seq<BankRow>)
    requires WellFormed(s) && Agrees(s, all) && forall r | r in rows :: r in all
    ensures var out := Assemble(rows, s).state;
            && WellFormed(out) && Agrees(out, all)
            && (forall x | x in s.ids :: x in out.ids && out.ids[x] == s.ids[x])
  {
    var pre, post := PreRows(rows), PostRows(rows);
    SplitMembers(rows);
    FoldInitialKeeps(pre, s, all);
    AllocateKeeps(FoldInitial(pre, s), post, |post|, all);
    forall x | x in s.ids ensures x in Assemble(rows, s).state.ids && Assemble(rows, s).state.ids[x] == s.ids[x] {
      RecordedIdChangesExactly(rows, s, x);
      if x in Xids(pre) {
        KnownPreRowIsInitial(rows, s, all, x);
      }
    }
  }

  lemma {:induction false} KnownPreRowIsInitial(rows: seq<BankRow>, s: State, all: seq<BankRow>, x: string)
    requires WellFormed(s) && Agrees(s, all) && forall r | r in rows :: r in all
    requires x in s.ids && x in Xids(PreRows(rows))
    ensures s.ids[x] == InitialIn(s)
  {
    var pre := PreRows(rows);
    SplitMembers(rows);
    var k :| 0 <= k < |pre| && Xids(pre)[k] == x;
    assert pre[k] in pre;
    var i :| 0 <= i < |all| && all[i] == pre[k];
    assert s.ids[all[i].xid] == s.initialId;
  }

  /** After such a run, distinct post-formation external ids have distinct entry
      ids, all of them numbered below the next number and none of them the
      initial entry's. */
  lemma {:induction false} PostFormationIdsAreDistinct(rows: seq<BankRow>, s: State, all: seq<BankRow>,
                                                       a: BankRow, b: BankRow)
    requires WellFormed(s) && Agrees(s, all) && forall r | r in rows :: r in all
    requires a in PostRows(rows) && b in PostRows(rows)
    ensures var out := Assemble(rows, s).state;
            && a.xid in out.ids && b.xid in out.ids
            && (out.ids[a.xid] == out.ids[b.xid] <==> a.xid == b.xid)
            && out.ids[a.xid] != out.initialId
            && Allocated(out, out.ids[a.xid])
  {
    RunKeepsIds(rows, s, all);
    SplitMembers(rows);
    var post := PostRows(rows);
    var i :| 0 <= i < |post| && post[i] == a;
    var j :| 0 <= j < |post| && post[j] == b;
    AllocatedEntry(FoldInitial(PreRows(rows), s), post, i);
    AllocatedEntry(FoldInitial(PreRows(rows), s), post, j);
    var k :| 0 <= k < |all| && all[k] == a;
    assert !PreFormation(all[k]);
  }

  /** The state after reconciling a growing ledger run by run. */
  function StateAfter(runs: seq<seq<BankRow>>, s: State): State {
    if runs == [] then s else Assemble(runs[|runs| - 1], StateAfter(runs[..|runs| - 1], s)).state
  }

  /** Once recorded, an entry id is never changed by any later run. */
  lemma {:induction false} RecordedForever(runs: seq<seq<BankRow>>, s: State, all: seq<BankRow>)
    requires WellFormed(s) && Agrees(s, all)
    requires forall k, r | 0 <= k < |runs| && r in runs[k] :: r in all
    ensures var out := StateAfter(runs, s);
            && WellFormed(out) && Agrees(out, all)
            && (forall x | x in s.ids :: x in out.ids && out.ids[x] == s.ids[x])
  {
    if runs != [] {
      var before := runs[..|runs| - 1];
      assert forall k, r | 0 <= k < |before| && r in before[k] :: r in runs[k];
      RecordedForever(before, s, all);
      RunKeepsIds(runs[|runs| - 1], StateAfter(before, s), all);
    }
  }

  /** A missing state file gives a good start for any rows whose external ids fall
      on one side of the formation date. */
  lemma {:induction false} FreshStateIsGood(all: seq<BankRow>)
    requires forall i, j | 0 <= i < |all| && 0 <= j < |all| && all[i].xid == all[j].xid ::
               PreFormation(all[i]) <==> PreFormation(all[j])
    ensures WellFormed(FRESH_STATE) && Agrees(FRESH_STATE, all)
  {
  }

  /** The initial entry is C-2026-001 exactly when it already was, or is assigned
      now with nothing allocated before it. */
  lemma {:induction false} InitialIdIsFirstExactly(rows: seq<BankRow>, s: State)
    ensures Assemble(rows, s).state.initialId == FormatId(1) <==>
            s.initialId == FormatId(1) || (s.initialId == "" && PreRows(rows) != [] && s.nextNumber == 1)
  {
    InitialIdIsNext(rows, s);
    if FormatId(s.nextNumber) == FormatId(1) {
      FormatIdInjective(s.nextNumber, 1);
    }
  }

  // ----- an initial entry that comes second -----

  function FounderRow(ts: string, xid: string): BankRow {
    BankRow("cash_app_personal_csv", "business_transfer", -100, "HUSTLEFORGE", ts, xid)
  }

  lemma {:induction false} CommonFront(front: string, a: string, b: string)
    ensures StrictlyBefore(front + a, front + b) <==> StrictlyBefore(a, b)
  {
    if front == [] {
      assert front + a == a && front + b == b;
    } else {
      CommonFront(front[1..], a, b);
      assert (front + a)[1..] == front[1..] + a && (front + b)[1..] == front[1..] + b;
    }
  }

  lemma {:induction false} FirstDiffer(front: string, a: string, b: string)
    requires a != [] && b != [] && a[0] != b[0]
    ensures StrictlyBefore(front + a, front + b) <==> a[0] < b[0]
  {
    CommonFront(front, a, b);
  }

  lemma {:induction false} ContainsItself(text: string)
    ensures Contains(text, text)
  {
  }

  lemma {:induction false} FounderRowCounts(r: BankRow, name: string)
    requires r == FounderRow(r.ts, r.xid) && name == "HUSTLEFORGE"
    ensures IsFounderContribution(r)
  {
    assert r.description == name && Upper(name) == name;
    ContainsItself(name);
  }

  lemma {:induction false} FirstOfFebruary(r: BankRow, front: string, rest: string)
    requires r.ts == front + rest && front == "2026-0" && rest == "2-01"
    ensures !PreFormation(r)
  {
    assert DateOf(r) == r.ts && FORMATION == front + "1-01";
    FirstDiffer(front, rest, "1-01");
  }

  lemma {:induction false} LastDecember(r: BankRow, front: string, rest: string)
    requires r.ts == front + rest && front == "202" && rest == "5-12-01"
    ensures PreFormation(r)
  {
    assert DateOf(r) == r.ts && FORMATION == front + "6-01-01";
    FirstDiffer(front, rest, "6-01-01");
  }

  /** A first run that sees no pre-formation row gives number one to a later row;
      the initial entry of the next run is then number two. */
  lemma {:induction false} InitialIdCanBeSecond(late: BankRow, early: BankRow)
    requires late == FounderRow("2026-02-01", "late") && early == FounderRow("2025-12-01", "early")
    ensures var first := Assemble([late], FRESH_STATE).state;
            && first.initialId == "" && first.nextNumber == 2
            && Assemble([late, early], first).state.initialId == FormatId(2) != FormatId(1)
  {
    FounderRowCounts(late, "HUSTLEFORGE");
    FounderRowCounts(early, "HUSTLEFORGE");
    assert late.ts == "2026-0" + "2-01" && early.ts == "202" + "5-12-01";
    FirstOfFebruary(late, "2026-0", "2-01");
    LastDecember(early, "202", "5-12-01");
    OnePostRow(late);
    SplitMembers([late, early]);
    assert early in [late, early];
    InitialIdIsNext([late, early], Assemble([late], FRESH_STATE).state);
    InitialIdIsFirstExactly([late, early], Assemble([late], FRESH_STATE).state);
  }

  lemma {:induction false} InitialIdIsNext(rows: seq<BankRow>, s: State)
    ensures Assemble(rows, s).state.initialId == if PreRows(rows) == [] then s.initialId else InitialIn(s)
  {
    AllocateGrows(FoldInitial(PreRows(rows), s), PostRows(rows), 0, |PostRows(rows)|);
  }

  lemma {:induction false} OnePostRow(r: BankRow)
    requires IsFounderContribution(r) && !PreFormation(r)
    ensures var s := Assemble([r], FRESH_STATE).state; s.initialId == "" && s.nextNumber == 2
  {
    OneCandidate(r);
    OneFiltered(r, PreFormation);
    OneFiltered(r, PostFormation);
    OneAllocated(Books([], FRESH_STATE), r);
  }

  lemma {:induction false} OneAllocated(b: Books, r: BankRow)
    ensures Allocate(b, [r], 1) == AllocateRow(b, r)
  {
    assert Allocate(b, [r], 0) == b;
  }

  lemma {:induction false} OneCandidate(r: BankRow)
    requires IsFounderContribution(r)
    ensures Candidates([r]) == [r]
  {
    OneFiltered(r, IsFounderContribution);
    assert [r][1..] == [];
    assert Sort([r][1..], EarlierRow) == [];
  }

  lemma {:induction false} OneFiltered(r: BankRow, keep: BankRow -> bool)
    ensures Filter([r], keep) == if keep(r) then [r] else []
  {
    assert [r][..0] == [];
    assert Filter([r][..0], keep) == [];
  }
}
