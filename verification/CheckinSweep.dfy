/** The sweep over the client check-in queue: due drafts are mailed, at most a
    capped number per sweep, each only to its client's registered address. */
module CheckinSweep {
  import opened Basics
  import opened Digraph

  datatype Status =
    | Pending | Sent | Stopped | StoppedDeleted | BlockedRecipient | BlockedPath | SendFailed | Other(text: string)

  /** The fields a sweep looks at.  `sendAfter` and `draftPath` may hold any JSON
      value; they stand for its text. */
  datatype Entry = Entry(status: Status, sendAfter: string, customer: string, to: string, draftPath: string)

  /** A record of the queue is JSON, but need not be an object. */
  datatype Row = Item(entry: Entry) | NotAnObject

  /** A time stamp without a zone, or one that is not text, raises. */
  datatype Timing = Due | NotDue | CannotCompare

  /** A path that is not text raises. */
  datatype Location = Inside(path: string) | Outside | CannotResolve

  /** What is found at a draft's path when the sweep gets there. */
  datatype Draft = Missing | Unreadable | Text(subject: string, body: string)

  /** Everything a sweep meets besides the queue: switches, clock, registry, file
      system, whether the mail backend takes the entry at a position, and whether
      the queue can be written back. */
  datatype Conditions = Conditions(
    disabled: bool, dry: bool, cap: int,
    due: string -> Timing,
    tidy: string -> string,
    allow: map<string, string>,
    resolve: string -> Location,
    draft: string -> Draft,
    accepts: nat -> bool,
    saves: bool)

  /** A mail handed over; `position` is the entry's place in the queue. */
  datatype Letter = Letter(position: nat, to: string, subject: string, body: string)

  /** The variables of the sweep's loop. */
  datatype Progress = Progress(
    rows: seq<Row>, sent: seq<Letter>, stopped: nat, skipped: nat, blocked: nat, changed: bool, crashed: bool)

  predicate Allowed(e: Entry, c: Conditions) {
    e.customer in c.allow && c.allow[e.customer] != "" && c.tidy(e.to) == c.allow[e.customer]
  }

  function Marked(p: Progress, i: nat, s: Status): Progress
    requires i < |p.rows| && p.rows[i].Item?
  {
    p.(rows := p.rows[i := Item(p.rows[i].entry.(status := s))], changed := true)
  }

  /** One turn of the loop, at row i. */
  function Visit(p: Progress, c: Conditions, i: nat): Progress
    requires i < |p.rows|
  {
    match p.rows[i]
    case NotAnObject => p.(crashed := true)
    case Item(e) =>
      if e.status != Pending then p.(skipped := p.skipped + 1)
      else match c.due(e.sendAfter)
        case CannotCompare => p.(crashed := true)
        case NotDue => p.(skipped := p.skipped + 1)
        case Due => VisitDue(p, c, i, e)
  }

  function VisitDue(p: Progress, c: Conditions, i: nat, e: Entry): Progress
    requires i < |p.rows| && p.rows[i].Item?
  {
    if !Allowed(e, c) then Marked(p, i, BlockedRecipient).(blocked := p.blocked + 1)
    else match c.resolve(e.draftPath)
      case CannotResolve => p.(crashed := true)
      case Outside => Marked(p, i, BlockedPath).(blocked := p.blocked + 1)
      case Inside(path) =>
        if |p.sent| >= c.cap then p.(skipped := p.skipped + 1)
        else match c.draft(path)
          case Missing => Marked(p, i, StoppedDeleted).(stopped := p.stopped + 1)
          case Unreadable => p.(crashed := true)
          case Text(subject, body) =>
            if body == "" then p.(skipped := p.skipped + 1)
            else if c.dry then p
            else if c.accepts(i) then Marked(p, i, Sent).(sent := p.sent + [Letter(i, e.to, subject, body)])
            else Marked(p, i, SendFailed)
  }

  function Walk(rows: seq<Row>, c: Conditions, n: nat): (p: Progress)
    requires n <= |rows|
    ensures |p.rows| == |rows|
  {
    if n == 0 then Progress(rows, [], 0, 0, 0, false, false) else
      var before := Walk(rows, c, n - 1);
      if before.crashed then before else Visit(before, c, n - 1)
  }

  // ----- what a sweep means, without its loop -----

  predicate Pends(r: Row) {
    r.Item? && r.entry.status == Pending
  }

  function DraftOf(e: Entry, c: Conditions): Draft {
    match c.resolve(e.draftPath)
    case Inside(path) => c.draft(path)
    case _ => Missing
  }

  predicate Servable(e: Entry, c: Conditions, position: nat) {
    && c.due(e.sendAfter) == Due && Allowed(e, c) && c.resolve(e.draftPath).Inside?
    && DraftOf(e, c).Text? && DraftOf(e, c).body != "" && c.accepts(position)
  }

  /** Would be mailed if only there were no cap. */
  predicate Sendable(r: Row, c: Conditions, position: nat) {
    Pends(r) && Servable(r.entry, c, position)
  }

  /** Positions of the sendable entries among the first n, in queue order. */
  function Sendables(rows: seq<Row>, c: Conditions, n: nat): seq<nat>
    requires n <= |rows|
  {
    if n == 0 then [] else Sendables(rows, c, n - 1) + if Sendable(rows[n - 1], c, n - 1) then [n - 1] else []
  }

  lemma {:induction false} SendablesMembers(rows: seq<Row>, c: Conditions, n: nat)
    requires n <= |rows|
    ensures forall p | p in Sendables(rows, c, n) :: p < n && Sendable(rows[p], c, p)
  {
    if n > 0 {
      SendablesMembers(rows, c, n - 1);
    }
  }

  function Take<T>(s: seq<T>, k: int): seq<T> {
    if k <= 0 then [] else if k < |s| then s[..k] else s
  }

  function Positions(letters: seq<Letter>): seq<nat> {
    seq(|letters|, i requires 0 <= i < |letters| => letters[i].position)
  }

  /** A row no sweep gets past, whatever the cap: the record is no object, its
      time stamp cannot be compared, or its path cannot be resolved. */
  predicate Raises(r: Row, c: Conditions) {
    r.NotAnObject?
    || (Pends(r)
        && (c.due(r.entry.sendAfter) == CannotCompare
            || (c.due(r.entry.sendAfter) == Due && Allowed(r.entry, c) &&
              c.resolve(r.entry.draftPath) == CannotResolve)))
  }

  /** A row no sweep gets past if it looks at the draft, which cannot be read. */
  predicate Unopenable(r: Row, c: Conditions) {
    && Pends(r) && c.due(r.entry.sendAfter) == Due && Allowed(r.entry, c)
    && c.resolve(r.entry.draftPath).Inside? && DraftOf(r.entry, c) == Unreadable
  }

  /** The sweep aborts at row i, if it gets there. */
  ghost predicate Trips(rows: seq<Row>, c: Conditions, i: nat)
    requires i < |rows|
  {
    Raises(rows[i], c) || (Unopenable(rows[i], c) && |Sendables(rows, c, i)| < c.cap)
  }

  ghost predicate Smooth(rows: seq<Row>, c: Conditions, n: nat)
    requires n <= |rows|
  {
    forall i: nat | i < n :: !Trips(rows, c, i)
  }

  /** The status a live sweep leaves at row i. */
  ghost function Mark(rows: seq<Row>, c: Conditions, i: nat): Status
    requires i < |rows| && rows[i].Item?
  {
    var e := rows[i].entry;
    if e.status != Pending || c.due(e.sendAfter) != Due then e.status
    else if !Allowed(e, c) then BlockedRecipient
    else if c.resolve(e.draftPath) == Outside then BlockedPath
    else if |Sendables(rows, c, i)| >= c.cap then Pending
    else match DraftOf(e, c)
      case Missing => StoppedDeleted
      case Unreadable => Pending
      case Text(_, body) => if body == "" then Pending else if c.accepts(i) then Sent else SendFailed
  }

  ghost function Remarked(rows: seq<Row>, c: Conditions, i: nat): Row
    requires i < |rows|
  {
    if rows[i].Item? then Item(rows[i].entry.(status := Mark(rows, c, i))) else rows[i]
  }

  ghost predicate MarkedUpTo(rows: seq<Row>, after: seq<Row>, c: Conditions, n: nat)
    requires n <= |rows|
  {
    && |after| == |rows|
    && (forall i: nat | i < n :: after[i] == Remarked(rows, c, i))
    && (forall i: nat | n <= i < |rows| :: after[i] == rows[i])
  }

  /** Each letter goes to its entry's registered address and carries its draft. */
  ghost predicate Addressed(rows: seq<Row>, c: Conditions, letters: seq<Letter>) {
    forall l | l in letters ::
      && l.position < |rows|
      && Sendable(rows[l.position], c, l.position)
      && l.to == rows[l.position].entry.to
      && c.tidy(l.to) == c.allow[rows[l.position].entry.customer]
      && DraftOf(rows[l.position].entry, c) == Text(l.subject, l.body)
  }

  lemma {:induction false} PositionsAppend(letters: seq<Letter>, l: Letter)
    ensures Positions(letters + [l]) == Positions(letters) + [l.position]
  {
  }

  function LetterOf(rows: seq<Row>, c: Conditions, i: nat): Letter
    requires i < |rows| && Sendable(rows[i], c, i)
  {
    var e := rows[i].entry;
    Letter(i, e.to, DraftOf(e, c).subject, DraftOf(e, c).body)
  }

  lemma {:induction false} TakeAppend<T>(s: seq<T>, x: T, k: int)
    ensures Take(s + [x], k) == if |s| < k then Take(s, k) + [x] else Take(s, k)
  {
  }

  function WithNext(sent: seq<Letter>, rows: seq<Row>, c: Conditions, i: nat): seq<Letter>
    requires i < |rows|
  {
    if Sendable(rows[i], c, i) && |Sendables(rows, c, i)| < c.cap then sent + [LetterOf(rows, c, i)] else sent
  }

  lemma {:induction false} NextIsTaken(sent: seq<Letter>, rows: seq<Row>, c: Conditions, i: nat)
    requires i < |rows| && Positions(sent) == Take(Sendables(rows, c, i), c.cap)
    ensures Positions(WithNext(sent, rows, c, i)) == Take(Sendables(rows, c, i + 1), c.cap)
  {
    if Sendable(rows[i], c, i) {
      PositionsAppend(sent, LetterOf(rows, c, i));
      TakeAppend(Sendables(rows, c, i), i, c.cap);
    }
  }

  /** The mail backend did not take it. */
  predicate Refused(before: Row, after: Row) {
    Pends(before) && after.Item? && after.entry.status == SendFailed
  }

  lemma {:induction false} VisitMeans(p: Progress, rows: seq<Row>, c: Conditions, i: nat)
    requires i < |rows| == |p.rows| && p.rows[i] == rows[i] && !c.dry && !p.crashed
    requires !Trips(rows, c, i) && |p.sent| == |Take(Sendables(rows, c, i), c.cap)|
    ensures var q := Visit(p, c, i);
            && !q.crashed
            && q.rows == p.rows[i := Remarked(rows, c, i)]
            && q.sent == WithNext(p.sent, rows, c, i)
            && |q.sent| + q.stopped + q.skipped + q.blocked
               == |p.sent| + p.stopped + p.skipped + p.blocked
                  + (if Refused(rows[i], Remarked(rows, c, i)) then 0 else 1)
  {
  }

  lemma {:induction false} MarkedStep(rows: seq<Row>, before: seq<Row>, c: Conditions, i: nat)
    requires i < |rows| && MarkedUpTo(rows, before, c, i)
    ensures MarkedUpTo(rows, before[i := Remarked(rows, c, i)], c, i + 1)
  {
  }

  lemma {:induction false} LiveStep(p: Progress, rows: seq<Row>, c: Conditions, i: nat)
    requires i < |rows| && !c.dry && !p.crashed && !Trips(rows, c, i)
    requires Positions(p.sent) == Take(Sendables(rows, c, i), c.cap) && MarkedUpTo(rows, p.rows, c, i)
    ensures !Visit(p, c, i).crashed
    ensures Positions(Visit(p, c, i).sent) == Take(Sendables(rows, c, i + 1), c.cap)
    ensures MarkedUpTo(rows, Visit(p, c, i).rows, c, i + 1)
  {
    assert |p.sent| == |Positions(p.sent)|;
    VisitMeans(p, rows, c, i);
    NextIsTaken(p.sent, rows, c, i);
    MarkedStep(rows, p.rows, c, i);
  }

  /** Whatever a sweep meets, its letters go to registered addresses. */
  lemma {:induction false} LettersAreAddressed(rows: seq<Row>, c: Conditions, n: nat)
    requires n <= |rows|
    ensures forall i: nat | n <= i < |rows| :: Walk(rows, c, n).rows[i] == rows[i]
    ensures Addressed(rows, c, Walk(rows, c, n).sent)
  {
    if n > 0 {
      LettersAreAddressed(rows, c, n - 1);
    }
  }

  /** A live sweep that trips over nothing mails exactly the first `cap`
      sendable entries in queue order, and marks every row by its own facts and
      the number of sendables before it. */
  lemma {:induction false} SweepMeans(rows: seq<Row>, c: Conditions, n: nat)
    requires n <= |rows| && !c.dry && Smooth(rows, c, n)
    ensures !Walk(rows, c, n).crashed
    ensures Positions(Walk(rows, c, n).sent) == Take(Sendables(rows, c, n), c.cap)
    ensures MarkedUpTo(rows, Walk(rows, c, n).rows, c, n)
  {
    if n > 0 {
      SweepMeans(rows, c, n - 1);
      LiveStep(Walk(rows, c, n - 1), rows, c, n - 1);
      assert Walk(rows, c, n) == Visit(Walk(rows, c, n - 1), c, n - 1);
    }
  }

  lemma {:induction false} TripCrashes(p: Progress, rows: seq<Row>, c: Conditions, i: nat)
    requires i < |rows| == |p.rows| && p.rows[i] == rows[i] && !p.crashed && Trips(rows, c, i)
    requires Positions(p.sent) == Take(Sendables(rows, c, i), c.cap)
    ensures Visit(p, c, i).crashed && Visit(p, c, i).sent == p.sent
  {
    assert |p.sent| == |Positions(p.sent)|;
  }

  lemma {:induction false} StaysCrashed(rows: seq<Row>, c: Conditions, m: nat, n: nat)
    requires m <= n <= |rows| && Walk(rows, c, m).crashed
    ensures Walk(rows, c, n) == Walk(rows, c, m)
  {
    if m < n {
      StaysCrashed(rows, c, m, n - 1);
    }
  }

  lemma {:induction false} FirstTripCrashes(rows: seq<Row>, c: Conditions, i: nat, n: nat)
    requires i < n <= |rows| && !c.dry && Trips(rows, c, i) && Smooth(rows, c, i)
    ensures Walk(rows, c, n).crashed && Positions(Walk(rows, c, n).sent) == Take(Sendables(rows, c, i), c.cap)
  {
    SweepMeans(rows, c, i);
    TripCrashes(Walk(rows, c, i), rows, c, i);
    StaysCrashed(rows, c, i + 1, n);
  }

  lemma {:induction false} FirstTrip(rows: seq<Row>, c: Conditions, n: nat) returns (i: nat)
    requires n <= |rows| && !Smooth(rows, c, n)
    ensures i < n && Trips(rows, c, i) && Smooth(rows, c, i)
  {
    if Smooth(rows, c, n - 1) {
      i := n - 1;
    } else {
      i := FirstTrip(rows, c, n - 1);
    }
  }

  /** A live sweep crashes exactly when it trips: at the first row it trips
      over, having mailed the first `cap` sendable entries before it. */
  lemma {:induction false} CrashesExactly(rows: seq<Row>, c: Conditions, n: nat)
    requires n <= |rows| && !c.dry
    ensures Walk(rows, c, n).crashed <==> !Smooth(rows, c, n)
    ensures Walk(rows, c, n).crashed ==>
              exists i: nat | i < n :: Trips(rows, c, i) && Smooth(rows, c, i)
                && Positions(Walk(rows, c, n).sent) == Take(Sendables(rows, c, i), c.cap)
  {
    if Smooth(rows, c, n) {
      SweepMeans(rows, c, n);
    } else {
      var i := FirstTrip(rows, c, n);
      FirstTripCrashes(rows, c, i, n);
    }
  }

  /** A rehearsal mails nothing. */
  lemma {:induction false} RehearsalSendsNothing(rows: seq<Row>, c: Conditions, n: nat)
    requires n <= |rows| && c.dry
    ensures Walk(rows, c, n).sent == []
  {
    if n > 0 {
      RehearsalSendsNothing(rows, c, n - 1);
    }
  }

  function Failures(rows: seq<Row>, after: seq<Row>, n: nat): nat
    requires n <= |rows| == |after|
  {
    if n == 0 then 0 else
      Failures(rows, after, n - 1) + if Refused(rows[n - 1], after[n - 1]) then 1 else 0
  }

  lemma {:induction false} FailuresFrame(rows: seq<Row>, a: seq<Row>, b: seq<Row>, n: nat)
    requires n <= |rows| == |a| == |b| && a[..n] == b[..n]
    ensures Failures(rows, a, n) == Failures(rows, b, n)
  {
    if n > 0 {
      assert a[..n][..n - 1] == a[..n - 1] && b[..n][..n - 1] == b[..n - 1];
      assert a[n - 1] == a[..n][n - 1] && b[n - 1] == b[..n][n - 1];
      FailuresFrame(rows, a, b, n - 1);
    }
  }

  /** The four counters account for every row, except that an entry the mail
      backend refused is counted nowhere. */
  lemma {:induction false} CountersAddUp(rows: seq<Row>, c: Conditions, n: nat)
    requires n <= |rows| && !c.dry && Smooth(rows, c, n)
    ensures var p := Walk(rows, c, n);
            |p.sent| + p.stopped + p.skipped + p.blocked + Failures(rows, p.rows, n) == n
  {
    if n > 0 {
      CountersAddUp(rows, c, n - 1);
      SweepMeans(rows, c, n - 1);
      var p := Walk(rows, c, n - 1);
      assert |p.sent| == |Positions(p.sent)|;
      assert !Trips(rows, c, n - 1);
      CountersStep(p, rows, c, n - 1);
    }
  }

  lemma {:induction false} CountersStep(p: Progress, rows: seq<Row>, c: Conditions, i: nat)
    requires i < |rows| == |p.rows| && p.rows[i] == rows[i] && !c.dry && !p.crashed
    requires !Trips(rows, c, i) && |p.sent| == |Take(Sendables(rows, c, i), c.cap)|
    requires |p.sent| + p.stopped + p.skipped + p.blocked + Failures(rows, p.rows, i) == i
    ensures var q := Visit(p, c, i);
            |q.rows| == |rows|
            && |q.sent| + q.stopped + q.skipped + q.blocked + Failures(rows, q.rows, i + 1) == i + 1
  {
    VisitMeans(p, rows, c, i);
    var after := p.rows[i := Remarked(rows, c, i)];
    assert p.rows[..i] == after[..i];
    FailuresFrame(rows, p.rows, after, i);
  }

  // ----- the queue file and its histories -----

  /** A line of the file; blank and undecodable lines are ignored on loading. */
  datatype Line = Record(row: Row) | Garbled

  function Records(file: seq<Line>): seq<Row> {
    if file == [] then [] else
      Records(file[..|file| - 1]) + match file[|file| - 1] case Record(r) => [r] case Garbled => []
  }

  function Rewritten(rows: seq<Row>): seq<Line> {
    seq(|rows|, i requires 0 <= i < |rows| => Record(rows[i]))
  }

  datatype State = State(file: Option<seq<Line>>, outbox: seq<Letter>)

  datatype Action = Sweep(c: Conditions) | Enqueue(lines: seq<Line>) | Stop(position: nat)

  /** Enqueueing creates a missing file. */
  function Contents(s: State): seq<Line> {
    match s.file
    case Some(file) => file
    case None => []
  }

  function Queue(s: State): seq<Row> {
    Records(Contents(s))
  }

  /** The sweep got to its end and could write the queue back. */
  predicate Kept(p: Progress, c: Conditions) {
    !p.crashed && c.saves
  }

  function After(s: State, a: Action): State {
    match a
    case Sweep(c) =>
      if c.disabled || s.file.None? then s else
        var rows := Queue(s);
        var p := Walk(rows, c, |rows|);
        State(if p.changed && !c.dry && Kept(p, c) then Some(Rewritten(p.rows)) else s.file, s.outbox + p.sent)
    case Enqueue(lines) =>
      s.(file := Some(Contents(s) + lines))
    case Stop(position) =>
      var rows := Queue(s);
      if position < |rows| && rows[position].Item? then s.(file := Some(Rewritten(StopAt(rows, position)))) else s
  }

  function StopAt(rows: seq<Row>, position: nat): seq<Row>
    requires position < |rows| && rows[position].Item?
  {
    rows[position := Item(rows[position].entry.(status := Stopped))]
  }

  function Run(s: State, actions: seq<Action>): State {
    if actions == [] then s else After(Run(s, actions[..|actions| - 1]), actions[|actions| - 1])
  }

  lemma {:induction false} RecordsOfRewritten(rows: seq<Row>)
    ensures Records(Rewritten(rows)) == rows
  {
    if rows != [] {
      var front := rows[..|rows| - 1];
      assert Rewritten(rows)[..|rows| - 1] == Rewritten(front);
      RecordsOfRewritten(front);
      assert rows == front + [rows[|rows| - 1]];
    }
  }

  lemma {:induction false} RecordsAppend(a: seq<Line>, b: seq<Line>)
    ensures Records(a + b) == Records(a) + Records(b)
  {
    if b == [] {
      assert a + b == a;
    } else {
      assert (a + b)[..|a + b| - 1] == a + b[..|b| - 1];
      RecordsAppend(a, b[..|b| - 1]);
    }
  }

  lemma {:induction false} UnchangedKeepsRows(rows: seq<Row>, c: Conditions, n: nat)
    requires n <= |rows| && !Walk(rows, c, n).changed
    ensures Walk(rows, c, n).rows == rows && Walk(rows, c, n).sent == []
  {
    if n > 0 {
      UnchangedKeepsRows(rows, c, n - 1);
    }
  }

  /** The queue after a sweep: the loop's rows if they were saved. */
  lemma {:induction false} QueueAfterSweep(s: State, c: Conditions)
    requires !c.disabled && s.file.Some?
    ensures var p := Walk(Queue(s), c, |Queue(s)|);
            Queue(After(s, Sweep(c))) == if c.dry || !Kept(p, c) then Queue(s) else p.rows
  {
    var p := Walk(Queue(s), c, |Queue(s)|);
    if p.changed {
      RecordsOfRewritten(p.rows);
    } else {
      UnchangedKeepsRows(Queue(s), c, |Queue(s)|);
    }
  }

  // ----- at most once -----

  /** Nothing was mailed twice, and nothing mailed is still pending. */
  ghost predicate Settled(s: State) {
    && Distinct(Positions(s.outbox))
    && forall p | p in Positions(s.outbox) :: p < |Queue(s)| && !Pends(Queue(s)[p])
  }

  /** Mail goes out and its marks are lost: the first row the sweep trips over
      comes after at least one letter, or the queue cannot be written back. */
  ghost predicate Tears(rows: seq<Row>, c: Conditions) {
    && !c.disabled && !c.dry
    && if Smooth(rows, c, |rows|) then !c.saves && Take(Sendables(rows, c, |rows|), c.cap) != []
       else exists i: nat | i < |rows| ::
         Trips(rows, c, i) && Smooth(rows, c, i) && Take(Sendables(rows, c, i), c.cap) != []
  }

  lemma {:induction false} SendablesDistinct(rows: seq<Row>, c: Conditions, n: nat)
    requires n <= |rows|
    ensures Distinct(Sendables(rows, c, n))
  {
    if n > 0 {
      SendablesDistinct(rows, c, n - 1);
      SendablesMembers(rows, c, n - 1);
    }
  }

  lemma {:induction false} DistinctAppend(a: seq<nat>, b: seq<nat>)
    requires Distinct(a) && Distinct(b)
    requires forall p | p in b :: p !in a
    ensures Distinct(a + b)
  {
    forall i, j | 0 <= i < j < |a + b|
      ensures (a + b)[i] != (a + b)[j]
    {
      if i < |a| && |a| <= j {
        assert b[j - |a|] in b;
      }
    }
  }

  lemma {:induction false} PositionsConcat(a: seq<Letter>, b: seq<Letter>)
    ensures Positions(a + b) == Positions(a) + Positions(b)
  {
  }

  lemma {:induction false} FirstTripIsUnique(rows: seq<Row>, c: Conditions, i: nat, j: nat)
    requires i < |rows| && j < |rows|
    requires Trips(rows, c, i) && Smooth(rows, c, i) && Trips(rows, c, j) && Smooth(rows, c, j)
    ensures i == j
  {
  }

  /** A sweep is torn exactly when it sends mail and is not kept. */
  lemma {:induction false} TornExactly(rows: seq<Row>, c: Conditions)
    requires !c.disabled && !c.dry
    ensures Tears(rows, c) <==> !Kept(Walk(rows, c, |rows|), c) && Walk(rows, c, |rows|).sent != []
  {
    var p := Walk(rows, c, |rows|);
    CrashesExactly(rows, c, |rows|);
    assert |p.sent| == |Positions(p.sent)|;
    if p.crashed {
      var i: nat :| i < |rows| && Trips(rows, c, i) && Smooth(rows, c, i)
                    && Positions(p.sent) == Take(Sendables(rows, c, i), c.cap);
      if Tears(rows, c) {
        var j: nat :| j < |rows| && Trips(rows, c, j) && Smooth(rows, c, j) && Take(Sendables(rows, c, j), c.cap) != [];
        FirstTripIsUnique(rows, c, i, j);
      }
    } else {
      SweepMeans(rows, c, |rows|);
    }
  }

  /** One sweep keeps the queue settled exactly when it is not torn. */
  lemma {:induction false} SweepSettlesExactly(s: State, c: Conditions)
    requires Settled(s)
    ensures Settled(After(s, Sweep(c))) <==> !(s.file.Some? && Tears(Queue(s), c))
  {
    if !c.disabled && s.file.Some? {
      var rows := Queue(s);
      var p := Walk(rows, c, |rows|);
      QueueAfterSweep(s, c);
      PositionsConcat(s.outbox, p.sent);
      if c.dry {
        RehearsalSendsNothing(rows, c, |rows|);
      } else {
        TornExactly(rows, c);
        CrashesExactly(rows, c, |rows|);
        if Kept(p, c) {
          KeptSweepSettles(s, c);
        } else {
          LossUnsettles(s, c);
        }
      }
    }
  }

  lemma {:induction false} LossUnsettles(s: State, c: Conditions)
    requires Settled(s) && s.file.Some? && !c.disabled && !c.dry && !Kept(Walk(Queue(s), c, |Queue(s)|), c)
    ensures Settled(After(s, Sweep(c))) <==> Walk(Queue(s), c, |Queue(s)|).sent == []
  {
    var p := Walk(Queue(s), c, |Queue(s)|);
    var after := After(s, Sweep(c));
    QueueAfterSweep(s, c);
    PositionsConcat(s.outbox, p.sent);
    if p.sent != [] {
      LettersAreAddressed(Queue(s), c, |Queue(s)|);
      var l := p.sent[0];
      assert l in p.sent;
      assert Positions(after.outbox)[|s.outbox|] == l.position;
      assert l.position in Positions(after.outbox);
    } else {
      assert after.outbox == s.outbox;
    }
  }

  lemma {:induction false} KeptSweepSettles(s: State, c: Conditions)
    requires Settled(s) && s.file.Some? && !c.disabled && !c.dry && Smooth(Queue(s), c, |Queue(s)|) && c.saves
    ensures Settled(After(s, Sweep(c)))
  {
    var p := Walk(Queue(s), c, |Queue(s)|);
    MailedWasPending(Queue(s), c);
    NothingBecomesPending(Queue(s), c);
    QueueAfterSweep(s, c);
    PositionsConcat(s.outbox, p.sent);
    DistinctAppend(Positions(s.outbox), Positions(p.sent));
    assert Positions(After(s, Sweep(c)).outbox) == Positions(s.outbox) + Positions(p.sent);
  }

  lemma {:induction false} NothingBecomesPending(rows: seq<Row>, c: Conditions)
    requires !c.dry && Smooth(rows, c, |rows|)
    ensures forall q: nat | q < |rows| && !Pends(rows[q]) :: Walk(rows, c, |rows|).rows[q] == rows[q]
  {
    SweepMeans(rows, c, |rows|);
  }

  /** A smooth sweep mails different entries, all pending before and none after. */
  lemma {:induction false} MailedWasPending(rows: seq<Row>, c: Conditions)
    requires !c.dry && Smooth(rows, c, |rows|)
    ensures var p := Walk(rows, c, |rows|);
            && !p.crashed && Distinct(Positions(p.sent))
            && (forall q | q in Positions(p.sent) ::
                  q < |rows| && Pends(rows[q]) && !Pends(p.rows[q]))
  {
    var p := Walk(rows, c, |rows|);
    SweepMeans(rows, c, |rows|);
    SendablesDistinct(rows, c, |rows|);
    SendablesMembers(rows, c, |rows|);
    var all := Sendables(rows, c, |rows|);
    forall q | q in Positions(p.sent)
      ensures q < |rows| && Pends(rows[q]) && !Pends(p.rows[q])
    {
      var k :| 0 <= k < |Positions(p.sent)| && Positions(p.sent)[k] == q;
      assert all[k] == q && q in all;
      TakenIsSent(rows, c, |rows|, k);
    }
  }

  /** Those among the first `cap` sendables are the ones marked sent. */
  lemma {:induction false} TakenIsSent(rows: seq<Row>, c: Conditions, n: nat, k: nat)
    requires n <= |rows| && k < |Sendables(rows, c, n)|
    ensures Sendables(rows, c, n)[k] < n && rows[Sendables(rows, c, n)[k]].Item?
    ensures k == |Sendables(rows, c, Sendables(rows, c, n)[k])|
    ensures k < c.cap <==> Mark(rows, c, Sendables(rows, c, n)[k]) == Sent
  {
    SendablesMembers(rows, c, n);
    assert Sendables(rows, c, n)[k] in Sendables(rows, c, n);
    if k < |Sendables(rows, c, n - 1)| {
      TakenIsSent(rows, c, n - 1, k);
    }
  }

  lemma {:induction false} OtherActionsSettle(s: State, a: Action)
    requires Settled(s) && !a.Sweep?
    ensures Settled(After(s, a))
  {
    match a
    case Enqueue(lines) =>
      RecordsAppend(Contents(s), lines);
      assert Queue(After(s, a)) == Queue(s) + Records(lines);
    case Stop(position) =>
      var rows := Queue(s);
      if position < |rows| && rows[position].Item? {
        RecordsOfRewritten(StopAt(rows, position));
      }
    case Sweep(_) =>
  }

  /** No sweep of the history is torn. */
  ghost predicate Uninterrupted(s: State, actions: seq<Action>) {
    actions == [] ||
    var before, last := actions[..|actions| - 1], actions[|actions| - 1];
    && Uninterrupted(s, before)
    && (last.Sweep? && Run(s, before).file.Some? ==> !Tears(Queue(Run(s, before)), last.c))
  }

  /** Over any history of sweeps, enqueues and stops in which no sweep is torn,
      each entry is mailed at most once, whatever the conditions of the sweeps. */
  lemma {:induction false} AtMostOnce(s: State, actions: seq<Action>)
    requires Settled(s) && Uninterrupted(s, actions)
    ensures Settled(Run(s, actions))
  {
    if actions != [] {
      var before, last := actions[..|actions| - 1], actions[|actions| - 1];
      AtMostOnce(s, before);
      if last.Sweep? {
        SweepSettlesExactly(Run(s, before), last.c);
      } else {
        OtherActionsSettle(Run(s, before), last);
      }
    }
  }

  /** After a torn sweep the same sweep mails the same letters again. */
  lemma {:induction false} TornSweepRepeats(s: State, c: Conditions)
    requires s.file.Some? && Tears(Queue(s), c)
    ensures var once := After(s, Sweep(c));
            var letters := Walk(Queue(s), c, |Queue(s)|).sent;
            letters != [] && After(once, Sweep(c)).outbox == s.outbox + letters + letters
  {
    TornExactly(Queue(s), c);
  }

  /** Toy conditions: stamps "now" and "no zone", paths "good", "bad" (a draft
      that cannot be read) and "7" (not text). */
  function ToyConditions(saves: bool): Conditions {
    Conditions(
      false, false, 5,
      (stamp: string) => if stamp == "now" then Due else CannotCompare,
      (text: string) => text,
      map["c1" := "a@b"],
      (path: string) => if path == "7" then CannotResolve else Inside(path),
      (path: string) => if path == "good" then Text("hello", "dear client") else Unreadable,
      (position: nat) => true,
      saves)
  }

  function ToyRow(stamp: string, path: string): Row {
    Item(Entry(Pending, stamp, "c1", "a@b", path))
  }

  /** Every kind of tear: a good entry, then a record that is no object, a stamp
      without a zone, a path that is not text or a draft that cannot be read; or a
      queue that cannot be written back. */
  lemma {:induction false} TearingHappens(second: Row)
    requires second in {NotAnObject, ToyRow("no zone", "good"), ToyRow("now", "7"), ToyRow("now", "bad")}
    ensures Tears([ToyRow("now", "good"), second], ToyConditions(true))
    ensures Tears([ToyRow("now", "good")], ToyConditions(false))
  {
    var first := ToyRow("now", "good");
    ToySendable(first);
    var two, c := [first, second], ToyConditions(true);
    assert Sendables(two, c, 0) == [];
    assert Sendables(two, c, 1) == [0];
    assert Trips(two, c, 1) && Smooth(two, c, 1);
    var one, d := [first], ToyConditions(false);
    assert Sendables(one, d, 0) == [];
    assert Sendables(one, d, 1) == [0];
  }

  lemma {:induction false} ToySendable(r: Row)
    requires r == ToyRow("now", "good")
    ensures forall saves :: Sendable(r, ToyConditions(saves), 0)
    ensures forall saves :: !Raises(r, ToyConditions(saves)) && !Unopenable(r, ToyConditions(saves))
  {
    assert "good"[0] != "7"[0];
  }

  ghost predicate Closed(s: State, p: nat) {
    p < |Queue(s)| && !Pends(Queue(s)[p])
  }

  lemma {:induction false} ClosedIsNotMailed(s: State, a: Action, p: nat)
    requires Closed(s, p)
    ensures Closed(After(s, a), p)
    ensures multiset(Positions(After(s, a).outbox))[p] == multiset(Positions(s.outbox))[p]
  {
    match a
    case Enqueue(lines) =>
      RecordsAppend(Contents(s), lines);
    case Stop(q) =>
      if q < |Queue(s)| && Queue(s)[q].Item? {
        RecordsOfRewritten(StopAt(Queue(s), q));
      }
    case Sweep(c) =>
      if !c.disabled && s.file.Some? {
        var rows := Queue(s);
        var letters := Walk(rows, c, |rows|).sent;
        QueueAfterSweep(s, c);
        if !c.dry {
          CrashesExactly(rows, c, |rows|);
          if Smooth(rows, c, |rows|) {
            NothingBecomesPending(rows, c);
          }
        }
        LettersAreAddressed(rows, c, |rows|);
        assert p !in Positions(letters);
        PositionsConcat(s.outbox, letters);
      }
  }

  /** A stop is final: once an entry is no longer pending, nothing that sweeps,
      enqueues or stops do mails it again, torn sweeps included. */
  lemma {:induction false} StopIsFinal(s: State, actions: seq<Action>, p: nat)
    requires Closed(s, p)
    ensures Closed(Run(s, actions), p)
    ensures multiset(Positions(Run(s, actions).outbox))[p] == multiset(Positions(s.outbox))[p]
  {
    if actions != [] {
      var before, last := actions[..|actions| - 1], actions[|actions| - 1];
      StopIsFinal(s, before, p);
      ClosedIsNotMailed(Run(s, before), last, p);
    }
  }

  lemma {:induction false} SentIsCapped(rows: seq<Row>, c: Conditions, n: nat)
    requires n <= |rows|
    ensures |Walk(rows, c, n).sent| <= (if c.cap > 0 then c.cap else 0)
  {
    if n > 0 {
      SentIsCapped(rows, c, n - 1);
    }
  }

  /** Each sweep mails at most `cap` letters, each to the address registered for
      its entry's customer, and none when disabled or rehearsing. */
  lemma {:induction false} SweepIsCappedAndAddressed(s: State, c: Conditions)
    ensures exists letters: seq<Letter> ::
              && After(s, Sweep(c)).outbox == s.outbox + letters
              && |letters| <= (if c.cap > 0 then c.cap else 0)
              && Addressed(Queue(s), c, letters)
              && (c.disabled || c.dry ==> letters == [])
  {
    if c.disabled || s.file.None? {
      assert s.outbox + [] == s.outbox;
      assert Addressed(Queue(s), c, []);
    } else {
      var rows := Queue(s);
      var p := Walk(rows, c, |rows|);
      if c.dry {
        RehearsalSendsNothing(rows, c, |rows|);
      } else {
        SentIsCapped(rows, c, |rows|);
        LettersAreAddressed(rows, c, |rows|);
      }
      assert After(s, Sweep(c)).outbox == s.outbox + p.sent;
    }
  }

  // ----- draining -----

  /** Sweeps that mail and keep their marks. */
  predicate Steady(c: Conditions) {
    !c.disabled && !c.dry && c.saves
  }

  /** No row can abort a sweep. */
  ghost predicate Untroubled(rows: seq<Row>, c: Conditions) {
    forall i | 0 <= i < |rows| :: !Raises(rows[i], c) && !Unopenable(rows[i], c)
  }

  function Drop<T>(s: seq<T>, k: int): seq<T> {
    if k <= 0 then s else if k < |s| then s[k..] else []
  }

  /** What stays sendable after a sweep is what the cap left over. */
  lemma {:induction false} LeftoverSendables(rows: seq<Row>, after: seq<Row>, c: Conditions, n: nat)
    requires n <= |rows| && MarkedUpTo(rows, after, c, |rows|)
    ensures Sendables(after, c, n) == Drop(Sendables(rows, c, n), c.cap)
  {
    if n > 0 {
      LeftoverSendables(rows, after, c, n - 1);
      assert after[n - 1] == Remarked(rows, c, n - 1);
    }
  }

  function AllSendables(rows: seq<Row>, c: Conditions): seq<nat> {
    Sendables(rows, c, |rows|)
  }

  function Mailed(rows: seq<Row>, c: Conditions): seq<Letter> {
    Walk(rows, c, |rows|).sent
  }

  function Swept(rows: seq<Row>, c: Conditions): seq<Row> {
    Walk(rows, c, |rows|).rows
  }

  lemma {:induction false} SweepDrains(rows: seq<Row>, c: Conditions)
    requires !c.dry && Untroubled(rows, c)
    ensures !Walk(rows, c, |rows|).crashed
    ensures Positions(Mailed(rows, c)) == Take(AllSendables(rows, c), c.cap)
    ensures Untroubled(Swept(rows, c), c)
    ensures AllSendables(Swept(rows, c), c) == Drop(AllSendables(rows, c), c.cap)
  {
    var after := Swept(rows, c);
    SweepMeans(rows, c, |rows|);
    LeftoverSendables(rows, after, c, |rows|);
    forall i: nat | i < |rows|
      ensures !Raises(after[i], c) && !Unopenable(after[i], c)
    {
      assert after[i] == Remarked(rows, c, i);
    }
  }

  /** After m sweeps under the same conditions. */
  function AfterSweeps(s: State, c: Conditions, m: nat): State {
    if m == 0 then s else After(AfterSweeps(s, c, m - 1), Sweep(c))
  }

  lemma {:induction false} AfterSweepsIsRun(s: State, c: Conditions, actions: seq<Action>)
    requires forall i | 0 <= i < |actions| :: actions[i] == Sweep(c)
    ensures Run(s, actions) == AfterSweeps(s, c, |actions|)
  {
    if actions != [] {
      AfterSweepsIsRun(s, c, actions[..|actions| - 1]);
    }
  }

  /** How many letters m sweeps may mail. */
  function Quota(cap: nat, m: nat): nat {
    if m == 0 then 0 else Quota(cap, m - 1) + cap
  }

  lemma {:induction false} QuotaIsProduct(cap: nat, m: nat)
    ensures Quota(cap, m) == m * cap
  {
    if m > 0 {
      QuotaIsProduct(cap, m - 1);
    }
  }

  /** From s to t the first `quota` sendable entries were mailed, in queue order,
      and the others are still sendable. */
  ghost predicate Drains(s: State, t: State, c: Conditions, quota: nat) {
    && t.file.Some? && Untroubled(Queue(t), c)
    && Positions(t.outbox) == Positions(s.outbox) + Take(AllSendables(Queue(s), c), quota)
    && AllSendables(Queue(t), c) == Drop(AllSendables(Queue(s), c), quota)
  }

  lemma {:induction false} SweepOnceDrains(s: State, c: Conditions)
    requires s.file.Some? && Steady(c) && c.cap >= 0 && Untroubled(Queue(s), c)
    ensures Drains(s, After(s, Sweep(c)), c, c.cap)
  {
    SweepDrains(Queue(s), c);
    QueueAfterSweep(s, c);
    PositionsConcat(s.outbox, Mailed(Queue(s), c));
  }

  lemma {:induction false} DrainsNothing(s: State, c: Conditions)
    requires s.file.Some? && Untroubled(Queue(s), c)
    ensures Drains(s, s, c, 0)
  {
    assert Positions(s.outbox) + [] == Positions(s.outbox);
  }

  lemma {:induction false} DrainsOn(s: State, t: State, u: State, c: Conditions, j: nat, k: nat)
    requires Drains(s, t, c, j) && Drains(t, u, c, k)
    ensures Drains(s, u, c, j + k)
  {
    var all := AllSendables(Queue(s), c);
    TakeDrop(all, j, k);
    Regroup(Positions(s.outbox), Take(all, j), Take(Drop(all, j), k));
  }

  lemma {:induction false} Regroup<T>(a: seq<T>, b: seq<T>, c: seq<T>)
    ensures a + b + c == a + (b + c)
  {
  }

  lemma {:induction false} OneMoreDrains(s: State, t: State, u: State, c: Conditions, quota: nat)
    requires Steady(c) && c.cap >= 0
    ensures Drains(s, t, c, quota) && u == After(t, Sweep(c)) ==> Drains(s, u, c, quota + c.cap)
  {
    if Drains(s, t, c, quota) && u == After(t, Sweep(c)) {
      SweepOnceDrains(t, c);
      DrainsOn(s, t, u, c, quota, c.cap);
    }
  }

  lemma {:induction false} DrainsThrough(s: State, c: Conditions, m: nat)
    requires Steady(c) && c.cap >= 0
    ensures Drains(s, s, c, 0) ==> Drains(s, AfterSweeps(s, c, m), c, Quota(c.cap, m))
  {
    if m > 0 {
      DrainsThrough(s, c, m - 1);
      OneMoreDrains(s, AfterSweeps(s, c, m - 1), AfterSweeps(s, c, m), c, Quota(c.cap, m - 1));
    }
  }

  /** Under steady conditions m sweeps mail exactly the first m * cap sendable
      entries, in queue order, and leave the others sendable. */
  lemma {:induction false} DrainsInOrder(s: State, c: Conditions, m: nat)
    requires s.file.Some? && Steady(c) && c.cap >= 0 && Untroubled(Queue(s), c)
    ensures Drains(s, AfterSweeps(s, c, m), c, m * c.cap)
  {
    DrainsNothing(s, c);
    DrainsThrough(s, c, m);
    QuotaIsProduct(c.cap, m);
  }

  lemma {:induction false} TakeDrop<T>(s: seq<T>, j: nat, k: nat)
    ensures Take(s, j) + Take(Drop(s, j), k) == Take(s, j + k)
    ensures Drop(Drop(s, j), k) == Drop(s, j + k)
  {
  }

  /** So k sendable entries are all mailed, in queue order, within
      ceil(k / cap) sweeps. */
  lemma {:induction false} DrainTime(s: State, c: Conditions, m: nat)
    requires s.file.Some? && Steady(c) && c.cap >= 1 && Untroubled(Queue(s), c)
    requires m >= (|AllSendables(Queue(s), c)| + c.cap - 1) / c.cap
    ensures var now := AfterSweeps(s, c, m);
            && Positions(now.outbox) == Positions(s.outbox) + AllSendables(Queue(s), c)
            && AllSendables(Queue(now), c) == []
  {
    DrainsInOrder(s, c, m);
    CeilCovers(|AllSendables(Queue(s), c)|, c.cap, m);
  }

  lemma {:induction false} CeilCovers(k: nat, cap: int, m: nat)
    requires cap >= 1 && m >= (k + cap - 1) / cap
    ensures m * cap >= k
  {
    var q := (k + cap - 1) / cap;
    assert q * cap + (k + cap - 1) % cap == k + cap - 1;
    assert (m - q) * cap >= 0;
  }

  // ----- waiting time under changing conditions -----

  function Ahead(rows: seq<Row>, n: nat): nat
    requires n <= |rows|
  {
    if n == 0 then 0 else Ahead(rows, n - 1) + if Pends(rows[n - 1]) then 1 else 0
  }

  /** A sweep that could serve the entry at p and trips over nothing. */
  ghost predicate Serves(s: State, a: Action, p: nat, cap: nat) {
    && a.Sweep? && Steady(a.c) && cap <= a.c.cap && Smooth(Queue(s), a.c, |Queue(s)|)
    && p < |Queue(s)| && Queue(s)[p].Item? && Servable(Queue(s)[p].entry, a.c, p)
  }

  /** Every sweep could serve p; in between anything may be enqueued and any
      other entry stopped. */
  ghost predicate Favourable(s: State, actions: seq<Action>, p: nat, cap: nat) {
    actions == [] ||
    var before, last := actions[..|actions| - 1], actions[|actions| - 1];
    && Favourable(s, before, p, cap)
    && match last
       case Sweep(_) => Serves(Run(s, before), last, p, cap)
       case Enqueue(_) => true
       case Stop(q) => q != p
  }

  function Sweeps(actions: seq<Action>): nat {
    if actions == [] then 0 else
      Sweeps(actions[..|actions| - 1]) + if actions[|actions| - 1].Sweep? then 1 else 0
  }

  ghost predicate Waiting(s: State, p: nat) {
    s.file.Some? && p < |Queue(s)| && Pends(Queue(s)[p])
  }

  lemma {:induction false} AheadShrinks(rows: seq<Row>, after: seq<Row>, c: Conditions, n: nat)
    requires n <= |rows| && MarkedUpTo(rows, after, c, |rows|) && c.cap >= 0
    ensures Ahead(after, n) + |Take(Sendables(rows, c, n), c.cap)| <= Ahead(rows, n)
  {
    if n > 0 {
      AheadShrinks(rows, after, c, n - 1);
      assert after[n - 1] == Remarked(rows, c, n - 1);
    }
  }

  lemma {:induction false} AheadFrame(a: seq<Row>, b: seq<Row>, n: nat)
    requires n <= |a| && n <= |b|
    requires forall i | 0 <= i < n :: Pends(b[i]) ==> Pends(a[i])
    ensures Ahead(b, n) <= Ahead(a, n)
  {
    if n > 0 {
      AheadFrame(a, b, n - 1);
    }
  }

  lemma {:induction false} SendablesSplit(rows: seq<Row>, c: Conditions, p: nat, n: nat)
    requires p < n <= |rows| && Sendable(rows[p], c, p)
    ensures |Sendables(rows, c, p)| < |Sendables(rows, c, n)|
    ensures Sendables(rows, c, n)[|Sendables(rows, c, p)|] == p
  {
    if p < n - 1 {
      SendablesSplit(rows, c, p, n - 1);
    }
  }

  lemma {:induction false} ServedOrCloserRows(rows: seq<Row>, c: Conditions, p: nat)
    requires p < |rows| && Sendable(rows[p], c, p) && !c.dry && c.cap >= 0 && Smooth(rows, c, |rows|)
    ensures || p in Positions(Mailed(rows, c))
            || (Pends(Swept(rows, c)[p]) && Ahead(Swept(rows, c), p) + c.cap <= Ahead(rows, p))
  {
    SweepMeans(rows, c, |rows|);
    SendablesSplit(rows, c, p, |rows|);
    var k := |Sendables(rows, c, p)|;
    if k < c.cap {
      assert Positions(Mailed(rows, c))[k] == p;
    } else {
      AheadShrinks(rows, Swept(rows, c), c, p);
    }
  }

  /** A sweep that could serve p mails it, or mails `cap` entries ahead of it. */
  lemma {:induction false} ServedOrCloser(s: State, c: Conditions, p: nat, cap: nat)
    requires Waiting(s, p) && Serves(s, Sweep(c), p, cap)
    ensures var after := After(s, Sweep(c));
            || p in Positions(after.outbox)
            || (Waiting(after, p) && Ahead(Queue(after), p) + cap <= Ahead(Queue(s), p))
  {
    QueueAfterSweep(s, c);
    SweepMeans(Queue(s), c, |Queue(s)|);
    ServedOrCloserRows(Queue(s), c, p);
    PositionsConcat(s.outbox, Mailed(Queue(s), c));
    assert Positions(After(s, Sweep(c)).outbox) == Positions(s.outbox) + Positions(Mailed(Queue(s), c));
  }

  lemma {:induction false} OutboxGrows(s: State, a: Action, p: nat)
    requires p in Positions(s.outbox)
    ensures p in Positions(After(s, a).outbox)
  {
    var k :| 0 <= k < |Positions(s.outbox)| && Positions(s.outbox)[k] == p;
    assert Positions(After(s, a).outbox)[k] == p;
  }

  lemma {:induction false} OtherActionsKeepWaiting(s: State, a: Action, p: nat)
    requires Waiting(s, p) && !a.Sweep? && (a.Stop? ==> a.position != p)
    ensures Waiting(After(s, a), p) && Ahead(Queue(After(s, a)), p) <= Ahead(Queue(s), p)
  {
    match a
    case Enqueue(lines) =>
      RecordsAppend(s.file.value, lines);
      AheadFrame(Queue(s), Queue(After(s, a)), p);
    case Stop(q) =>
      var rows := Queue(s);
      if q < |rows| && rows[q].Item? {
        RecordsOfRewritten(StopAt(rows, q));
        AheadFrame(rows, Queue(After(s, a)), p);
      }
    case Sweep(_) =>
  }

  lemma {:induction false} OneMore(cap: nat, n: nat)
    ensures cap * (n + 1) == cap * n + cap
  {
  }

  /** Waiting time: an entry every sweep could serve is mailed, or each sweep
      moved it at least `cap` places forward. */
  lemma {:induction false} ServedOrMoved(s: State, actions: seq<Action>, p: nat, cap: nat)
    requires Waiting(s, p) && Favourable(s, actions, p, cap)
    ensures var now := Run(s, actions);
            || p in Positions(now.outbox)
            || (Waiting(now, p) && Ahead(Queue(now), p) + cap * Sweeps(actions) <= Ahead(Queue(s), p))
  {
    if actions != [] {
      var before, last := actions[..|actions| - 1], actions[|actions| - 1];
      ServedOrMoved(s, before, p, cap);
      var now := Run(s, before);
      if p in Positions(now.outbox) {
        OutboxGrows(now, last, p);
      } else if last.Sweep? {
        ServedOrCloser(now, last.c, p, cap);
        OneMore(cap, Sweeps(before));
      } else {
        OtherActionsKeepWaiting(now, last, p);
      }
    }
  }

  /** No starvation: with fewer than cap * m pending entries ahead of it, the
      entry is mailed within m sweeps, whatever is enqueued or stopped. */
  lemma {:induction false} ServedInTime(s: State, actions: seq<Action>, p: nat, cap: nat)
    requires Waiting(s, p) && Favourable(s, actions, p, cap)
    requires Ahead(Queue(s), p) < cap * Sweeps(actions)
    ensures p in Positions(Run(s, actions).outbox)
  {
    ServedOrMoved(s, actions, p, cap);
  }

  // ----- the program -----

  datatype Report =
    | Disabled
    | NoQueue
    | Crashed
    | Summary(sent: nat, stopped: nat, skipped: nat, blocked: nat, alert: bool)

  /** What a sweep prints. */
  ghost function Printed(s: State, c: Conditions): Report {
    if c.disabled then Disabled
    else if s.file.None? then NoQueue
    else
      var p := Walk(Queue(s), c, |Queue(s)|);
      if p.crashed || (p.changed && !c.dry && !c.saves) then Crashed
      else Summary(|p.sent|, p.stopped, p.skipped, p.blocked, p.blocked > 0 || |p.sent| >= c.cap)
  }

  class CheckinQueue {
    var file: Option<seq<Line>>
    /** Everything the mail backend has been handed. */
    var outbox: seq<Letter>

    ghost function Now(): State
      reads this
    {
      State(file, outbox)
    }

    constructor (file: Option<seq<Line>>)
      ensures Now() == State(file, [])
    {
      this.file, outbox := file, [];
    }

    method Load(lines: seq<Line>) returns (rows: seq<Row>)
      ensures rows == Records(lines)
    {
      rows := [];
      for i := 0 to |lines|
        invariant rows == Records(lines[..i])
      {
        assert lines[..i + 1][..i] == lines[..i];
        match lines[i]
        case Record(r) => rows := rows + [r];
        case Garbled =>
      }
      assert lines[..|lines|] == lines;
    }

    method RunSweep(c: Conditions) returns (report: Report)
      modifies this
      ensures Now() == After(old(Now()), Sweep(c))
      ensures report == Printed(old(Now()), c)
    {
      if c.disabled {
        return Disabled;
      }
      if file.None? {
        return NoQueue;
      }
      var rows := Load(file.value);
      var p := Progress(rows, [], 0, 0, 0, false, false);
      for i := 0 to |rows|
        invariant p == Walk(rows, c, i) && !p.crashed
        invariant file == old(file) && outbox == old(outbox) + p.sent
      {
        p := Turn(p, c, i, old(outbox));
        if p.crashed {
          StaysCrashed(rows, c, i + 1, |rows|);
          return Crashed;
        }
      }
      if p.changed && !c.dry {
        if !c.saves {
          return Crashed;
        }
        file := Some(Rewritten(p.rows));
      }
      report := Summary(|p.sent|, p.stopped, p.skipped, p.blocked, p.blocked > 0 || |p.sent| >= c.cap);
    }

    /** The loop's body.  An exception leaves the loop and the program. */
    method Turn(p: Progress, c: Conditions, i: nat, ghost base: seq<Letter>) returns (q: Progress)
      requires i < |p.rows| && outbox == base + p.sent
      modifies `outbox
      ensures q == Visit(p, c, i)
      ensures outbox == base + q.sent
    {
      q := p;
      if p.rows[i].NotAnObject? {
        return q.(crashed := true);
      }
      var e := p.rows[i].entry;
      if e.status != Pending {
        return q.(skipped := q.skipped + 1);
      }
      var timing := c.due(e.sendAfter);
      if timing == CannotCompare {
        return q.(crashed := true);
      }
      if timing == NotDue {
        return q.(skipped := q.skipped + 1);
      }
      var to := c.tidy(e.to);
      if e.customer !in c.allow || c.allow[e.customer] == "" || to != c.allow[e.customer] {
        q := q.(rows := q.rows[i := Item(e.(status := BlockedRecipient))]);
        return q.(blocked := q.blocked + 1, changed := true);
      }
      var full := c.resolve(e.draftPath);
      if full == CannotResolve {
        return q.(crashed := true);
      }
      if full == Outside {
        q := q.(rows := q.rows[i := Item(e.(status := BlockedPath))]);
        return q.(blocked := q.blocked + 1, changed := true);
      }
      if |q.sent| >= c.cap {
        return q.(skipped := q.skipped + 1);
      }
      match c.draft(full.path)
      case Missing =>
        q := q.(rows := q.rows[i := Item(e.(status := StoppedDeleted))]);
        return q.(stopped := q.stopped + 1, changed := true);
      case Unreadable =>
        return q.(crashed := true);
      case Text(subject, body) =>
        if body == "" {
          return q.(skipped := q.skipped + 1);
        }
        if c.dry {
          return;
        }
        if !c.accepts(i) {
          return q.(rows := q.rows[i := Item(e.(status := SendFailed))], changed := true);
        }
        var letter := Letter(i, e.to, subject, body);
        outbox := outbox + [letter];
        q := q.(rows := q.rows[i := Item(e.(status := Sent))]);
        return q.(sent := q.sent + [letter], changed := true);
    }
  }
}
