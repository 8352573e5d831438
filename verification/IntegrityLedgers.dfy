/** A hash-chained, signed, append-only event log: what verification accepts,
    why it makes tampering evident, and where it stops short of that. */
module IntegrityLedgers {
  import opened Basics

  const GENESIS := "0000000000000000000000000000000000000000000000000000000000000000"

  /** The part of an entry that is signed. */
  datatype Body = Body(number: int, ts: real, kind: string, prevHash: string, payload: string)

  datatype Entry = Entry(body: Body, hmac: string)

  /** One line of the file: blank, not readable as an entry, or an entry. */
  datatype Line = Blank | Malformed | Record(entry: Entry)

  /** Settings and cryptography.  `hash` is the digest of a whole entry, `mac`
      signs a body followed by its previous hash, `epochKey` derives the key of
      a rotation period. */
  datatype Scheme = Scheme(
    hash: Entry -> string,
    mac: (string, Body, string) -> string,
    epochKey: int -> string,
    rotation: int,
    verifyMax: int)

  /** What is asked of the hash, and only of the entries at hand. */
  ghost predicate AvoidsGenesis(c: Scheme, es: seq<Entry>) {
    forall i {:trigger c.hash(es[i])} | 0 <= i < |es| :: c.hash(es[i]) != GENESIS
  }

  /** No collision between an entry of one log and one of the other. */
  ghost predicate CollisionFree(c: Scheme, a: seq<Entry>, b: seq<Entry>) {
    && AvoidsGenesis(c, a) && AvoidsGenesis(c, b)
    && forall i, j {:trigger c.hash(a[i]), c.hash(b[j])} | 0 <= i < |a| && 0 <= j < |b| ::
         c.hash(a[i]) == c.hash(b[j]) ==> a[i] == b[j]
  }

  function Epoch(c: Scheme, ts: real): int
    requires c.rotation > 0
  {
    (ts / c.rotation as real).Floor
  }

  function Sign(c: Scheme, epoch: int, b: Body): string {
    c.mac(c.epochKey(epoch), b, b.prevHash)
  }

  /** Signed under its own period's key or the period before. */
  predicate SignatureOk(c: Scheme, e: Entry)
    requires c.rotation > 0
  {
    var epoch := Epoch(c, e.body.ts);
    e.hmac == Sign(c, epoch, e.body) || e.hmac == Sign(c, epoch - 1, e.body)
  }

  // ----- the verification walk -----

  datatype Reason = ParseError | PrevHashMismatch | HmacMismatch

  datatype Verdict = EmptyLedger | Verified(count: nat) | Broken(number: int, reason: Reason)

  predicate Passes(v: Verdict) {
    !v.Broken?
  }

  datatype Walk = Going(prevHash: string, prevNumber: int, count: nat) | Stopped(verdict: Verdict)

  /** Take line number `lineNo` of a window of `size` lines into account. */
  function WalkLine(c: Scheme, w: Walk, line: Line, lineNo: nat, size: nat): Walk
    requires c.rotation > 0
  {
    if w.Stopped? then w else
      match line
      case Blank => w
      case Malformed => Stopped(Broken(w.prevNumber + 1, ParseError))
      case Record(e) =>
        if e.body.prevHash != w.prevHash && !(lineNo == 1 && size == c.verifyMax)
        then Stopped(Broken(e.body.number, PrevHashMismatch))
        else if !SignatureOk(c, e) then Stopped(Broken(e.body.number, HmacMismatch))
        else Going(c.hash(e), e.body.number, w.count + 1)
  }

  function WalkTo(c: Scheme, window: seq<Line>, n: nat): Walk
    requires c.rotation > 0 && n <= |window|
  {
    if n == 0 then Going(GENESIS, 0, 0)
    else WalkLine(c, WalkTo(c, window, n - 1), window[n - 1], n, |window|)
  }

  function Window(lines: seq<Line>, maxEntries: int): seq<Line> {
    if 0 < maxEntries < |lines| then lines[|lines| - maxEntries..] else lines
  }

  function Verify(c: Scheme, lines: seq<Line>, maxEntries: int): Verdict
    requires c.rotation > 0
  {
    if lines == [] then EmptyLedger else
      var window := Window(lines, maxEntries);
      match WalkTo(c, window, |window|)
      case Going(_, _, n) => Verified(n)
      case Stopped(v) => v
  }

  // ----- what passing means -----

  function Entries(lines: seq<Line>): seq<Entry> {
    if lines == [] then [] else
      var last := lines[|lines| - 1];
      Entries(lines[..|lines| - 1]) + if last.Record? then [last.entry] else []
  }

  function Tip(c: Scheme, es: seq<Entry>): string {
    if es == [] then GENESIS else c.hash(es[|es| - 1])
  }

  function LastNumber(es: seq<Entry>): int {
    if es == [] then 0 else es[|es| - 1].body.number
  }

  /** What entry i has to carry as its previous hash. */
  function HashBefore(c: Scheme, es: seq<Entry>, start: string, i: nat): string
    requires i <= |es|
  {
    if i == 0 then start else c.hash(es[i - 1])
  }

  /** Each entry carries the hash of the one before; the first carries `start`. */
  ghost predicate Linked(c: Scheme, es: seq<Entry>, start: string) {
    forall i {:trigger HashBefore(c, es, start, i)} | 0 <= i < |es| ::
        es[i].body.prevHash == HashBefore(c, es, start, i)
  }

  ghost predicate AllSigned(c: Scheme, es: seq<Entry>)
    requires c.rotation > 0
  {
    forall e | e in es :: SignatureOk(c, e)
  }

  /** The first line of the window is taken on trust. */
  predicate Seeded(c: Scheme, window: seq<Line>) {
    window != [] && window[0].Record? && |window| == c.verifyMax
  }

  function StartOf(c: Scheme, window: seq<Line>): string {
    if Seeded(c, window) then window[0].entry.body.prevHash else GENESIS
  }

  lemma {:induction false} EntriesFirst(window: seq<Line>, n: nat)
    requires 0 < n <= |window| && window[0].Record?
    ensures Entries(window[..n]) != [] && Entries(window[..n])[0] == window[0].entry
  {
    assert window[..n][..n - 1] == window[..n - 1];
    if n > 1 {
      EntriesFirst(window, n - 1);
    } else {
      assert window[..0] == [];
    }
  }

  /** The walk is still going after n lines exactly when those lines hold
      readable, signed entries linked from where the window starts. */
  lemma {:induction false} WalkMeans(c: Scheme, window: seq<Line>, n: nat)
    requires c.rotation > 0 && n <= |window|
    ensures WalkTo(c, window, n).Going? <==>
            && Malformed !in window[..n]
            && Linked(c, Entries(window[..n]), StartOf(c, window))
            && AllSigned(c, Entries(window[..n]))
    ensures WalkTo(c, window, n).Going? ==>
            && WalkTo(c, window, n).prevHash == Tip(c, Entries(window[..n]))
            && WalkTo(c, window, n).count == |Entries(window[..n])|
            && WalkTo(c, window, n).prevNumber == LastNumber(Entries(window[..n]))
  {
    if n > 0 {
      WalkMeans(c, window, n - 1);
      TakeOneMore(window, n);
      if window[n - 1].Record? {
        RecordGoesOn(c, window, n, Entries(window[..n - 1]));
      }
    }
  }

  lemma {:induction false} TakeOneMore(window: seq<Line>, n: nat)
    requires 0 < n <= |window|
    ensures Malformed in window[..n] <==> Malformed in window[..n - 1] || window[n - 1] == Malformed
    ensures var es := Entries(window[..n - 1]);
            Entries(window[..n]) == if window[n - 1].Record? then es + [window[n - 1].entry] else es
  {
    var longer := window[..n];
    assert longer == window[..n - 1] + [window[n - 1]] && longer[..n - 1] == window[..n - 1];
  }

  /** What the walk asks of one more record, given where it stands. */
  lemma {:induction false} RecordGoesOn(c: Scheme, window: seq<Line>, n: nat, es: seq<Entry>)
    requires c.rotation > 0 && 0 < n <= |window| && window[n - 1].Record? && es == Entries(window[..n - 1])
    ensures var e := window[n - 1].entry;
            && (AllSigned(c, es + [e]) <==> AllSigned(c, es) && SignatureOk(c, e))
            && (Linked(c, es + [e], StartOf(c, window)) <==>
                  Linked(c, es, StartOf(c, window))
                  && ((n == 1 && Seeded(c, window)) || e.body.prevHash == Tip(c, es)))
  {
    var e := window[n - 1].entry;
    AllSignedAppend(c, es, e);
    LinkedAppend(c, es, e, StartOf(c, window));
    if n == 1 {
      assert window[..0] == [];
    } else if Seeded(c, window) {
      EntriesFirst(window, n - 1);
    }
  }

  lemma {:induction false} AllSignedAppend(c: Scheme, es: seq<Entry>, e: Entry)
    requires c.rotation > 0
    ensures AllSigned(c, es + [e]) <==> AllSigned(c, es) && SignatureOk(c, e)
  {
    assert e in es + [e];
    assert forall x | x in es :: x in es + [e];
  }

  lemma {:induction false} LinkedAppend(c: Scheme, es: seq<Entry>, e: Entry, start: string)
    ensures Linked(c, es + [e], start) <==>
            Linked(c, es, start) && e.body.prevHash == if es == [] then start else c.hash(es[|es| - 1])
  {
    var longer := es + [e];
    forall i | 0 <= i < |es|
      ensures longer[i] == es[i] && HashBefore(c, longer, start, i) == HashBefore(c, es, start, i)
    {
      if i > 0 {
        assert longer[i - 1] == es[i - 1];
      }
    }
    assert longer[|es|] == e && HashBefore(c, longer, start, |es|) == if es == [] then start else c.hash(es[|es| - 1]);
    if Linked(c, longer, start) {
      forall i | 0 <= i < |es| ensures es[i].body.prevHash == HashBefore(c, es, start, i) {
        assert longer[i].body.prevHash == HashBefore(c, longer, start, i);
      }
    }
  }

  lemma {:induction false} VerifyMeans(c: Scheme, lines: seq<Line>, maxEntries: int)
    requires c.rotation > 0
    ensures Passes(Verify(c, lines, maxEntries)) <==> InOrder(c, Window(lines, maxEntries))
  {
    var w := Window(lines, maxEntries);
    WalkMeans(c, w, |w|);
    assert w[..|w|] == w;
    WalkStopsBroken(c, w, |w|);
  }

  lemma {:induction false} WalkStopsBroken(c: Scheme, window: seq<Line>, n: nat)
    requires c.rotation > 0 && n <= |window|
    ensures WalkTo(c, window, n).Stopped? ==> WalkTo(c, window, n).verdict.Broken?
  {
    if n > 0 {
      WalkStopsBroken(c, window, n - 1);
    }
  }

  /** What passing comes to for a window. */
  ghost predicate InOrder(c: Scheme, w: seq<Line>)
    requires c.rotation > 0
  {
    Malformed !in w && Linked(c, Entries(w), StartOf(c, w)) && AllSigned(c, Entries(w))
  }

  ghost predicate GoodUpTo(c: Scheme, window: seq<Line>, n: nat)
    requires c.rotation > 0 && n <= |window|
  {
    && Malformed !in window[..n]
    && Linked(c, Entries(window[..n]), StartOf(c, window))
    && AllSigned(c, Entries(window[..n]))
  }

  lemma {:induction false} FirstStop(c: Scheme, window: seq<Line>, n: nat) returns (k: nat)
    requires c.rotation > 0 && n <= |window| && WalkTo(c, window, n).Stopped?
    ensures k < n && WalkTo(c, window, k).Going? && WalkTo(c, window, n) == WalkTo(c, window, k + 1)
  {
    if WalkTo(c, window, n - 1).Stopped? {
      k := FirstStop(c, window, n - 1);
    } else {
      k := n - 1;
    }
  }

  /** Line k is the first that breaks the chain, and the verdict is about it: the
      number is that of the entry on it, or one more than the last entry's if the
      line is unreadable. */
  ghost predicate BreaksAt(c: Scheme, w: seq<Line>, k: nat, v: Verdict)
    requires c.rotation > 0 && v.Broken?
  {
    && k < |w| && GoodUpTo(c, w, k) && !GoodUpTo(c, w, k + 1)
    && match w[k]
       case Blank => false
       case Malformed => v.reason == ParseError && v.number == LastNumber(Entries(w[..k])) + 1
       case Record(e) =>
         v.number == e.body.number && (v.reason == PrevHashMismatch || (v.reason == HmacMismatch && !SignatureOk(c, e)))
  }

  /** A broken verdict names the first line that breaks the chain. */
  lemma {:induction false} VerdictNamesFirstBreak(c: Scheme, lines: seq<Line>, maxEntries: int)
    requires c.rotation > 0 && Verify(c, lines, maxEntries).Broken?
    ensures exists k: nat :: BreaksAt(c, Window(lines, maxEntries), k, Verify(c, lines, maxEntries))
  {
    var w := Window(lines, maxEntries);
    var k := BrokenWalk(c, w, Verify(c, lines, maxEntries));
  }

  lemma {:induction false} BrokenWalk(c: Scheme, w: seq<Line>, v: Verdict) returns (k: nat)
    requires c.rotation > 0 && v.Broken? && WalkTo(c, w, |w|) == Stopped(v)
    ensures BreaksAt(c, w, k, v)
  {
    k := FirstStop(c, w, |w|);
    WalkMeans(c, w, k);
    WalkMeans(c, w, k + 1);
  }

  // ----- tamper evidence -----

  /** Two linked chains with the same tip agree from the tip backwards. */
  lemma {:induction false} SameTipSameSuffix(c: Scheme, a: seq<Entry>, b: seq<Entry>, s: string, t: string)
    requires CollisionFree(c, a, b)
    requires Linked(c, a, s) && Linked(c, b, t)
    requires a != [] && |a| <= |b| && Tip(c, a) == Tip(c, b)
    ensures b[|b| - |a|..] == a
  {
    if |a| > 1 {
      FrontIsLinked(c, a, s);
      FrontIsLinked(c, b, t);
      SameTipSameSuffix(c, a[..|a| - 1], b[..|b| - 1], s, t);
      SuffixGrows(a, b);
    }
  }

  lemma {:induction false} SuffixGrows<T>(a: seq<T>, b: seq<T>)
    requires 0 < |a| <= |b| && a[|a| - 1] == b[|b| - 1]
    requires b[..|b| - 1][|b| - |a|..] == a[..|a| - 1]
    ensures b[|b| - |a|..] == a
  {
    assert a == a[..|a| - 1] + [a[|a| - 1]];
    assert b[|b| - |a|..] == b[..|b| - 1][|b| - |a|..] + [b[|b| - 1]];
  }

  lemma {:induction false} FrontIsLinked(c: Scheme, es: seq<Entry>, start: string)
    requires |es| > 1 && Linked(c, es, start)
    ensures Linked(c, es[..|es| - 1], start) && es[|es| - 1].body.prevHash == Tip(c, es[..|es| - 1])
  {
    assert es == es[..|es| - 1] + [es[|es| - 1]];
    LinkedAppend(c, es[..|es| - 1], es[|es| - 1], start);
  }

  /** A chain that starts at genesis is the whole of any chain it is a suffix of. */
  lemma {:induction false} AnchoredSuffixIsAll(c: Scheme, a: seq<Entry>, b: seq<Entry>, t: string)
    requires AvoidsGenesis(c, b) && Linked(c, a, GENESIS) && Linked(c, b, t)
    requires a != [] && |a| <= |b| && b[|b| - |a|..] == a
    ensures a == b
  {
    var k := |b| - |a|;
    assert a[0] == b[k];
    assert b[k].body.prevHash == HashBefore(c, b, t, k);
    assert a[0].body.prevHash == HashBefore(c, a, GENESIS, 0);
    assert k == 0;
  }

  /** Nothing but a chain anchored at genesis has its tip, among chains at least
      as long, wherever they start. */
  lemma {:induction false} AnchoredTipIsUnique(c: Scheme, a: seq<Entry>, b: seq<Entry>, t: string)
    requires CollisionFree(c, a, b) && Linked(c, a, GENESIS) && Linked(c, b, t)
    requires |a| <= |b| && Tip(c, a) == Tip(c, b)
    ensures a == b
  {
    if a != [] {
      SameTipSameSuffix(c, a, b, GENESIS, t);
      AnchoredSuffixIsAll(c, a, b, t);
    }
  }

  /** A check that passes and cuts nothing off. */
  ghost predicate WholeCheck(c: Scheme, lines: seq<Line>, maxEntries: int)
    requires c.rotation > 0
  {
    Passes(Verify(c, lines, maxEntries)) && Window(lines, maxEntries) == lines
  }

  /** Tamper evidence.  Of two logs that pass a whole-file check and have the same
      tip hash, the shorter is a suffix of the longer.  They are the same log,
      exactly, unless the shorter one's first link was taken on trust, which takes
      a file of exactly the configured window. */
  lemma {:induction false} TamperEvidence(c: Scheme, a: seq<Line>, b: seq<Line>, m: int, n: int)
    requires c.rotation > 0 && CollisionFree(c, Entries(a), Entries(b))
    requires WholeCheck(c, a, m) && WholeCheck(c, b, n) && |Entries(a)| <= |Entries(b)|
    ensures Entries(a) != [] && Tip(c, Entries(a)) == Tip(c, Entries(b)) ==>
              Entries(b)[|Entries(b)| - |Entries(a)|..] == Entries(a)
    ensures StartOf(c, a) == GENESIS ==> (Tip(c, Entries(a)) == Tip(c, Entries(b)) <==> Entries(a) == Entries(b))
    ensures |a| != c.verifyMax ==> StartOf(c, a) == GENESIS
  {
    WholeCheckLinks(c, a, m);
    WholeCheckLinks(c, b, n);
    SameTipSameLog(c, Entries(a), Entries(b), StartOf(c, a), StartOf(c, b));
  }

  lemma {:induction false} WholeCheckLinks(c: Scheme, lines: seq<Line>, m: int)
    requires c.rotation > 0
    ensures WholeCheck(c, lines, m) ==> Linked(c, Entries(lines), StartOf(c, lines))
  {
    VerifyMeans(c, lines, m);
  }

  lemma {:induction false} SameTipSameLog(c: Scheme, a: seq<Entry>, b: seq<Entry>, s: string, t: string)
    requires |a| <= |b|
    ensures CollisionFree(c, a, b) && Linked(c, a, s) && Linked(c, b, t) ==>
              && (a != [] && Tip(c, a) == Tip(c, b) ==> b[|b| - |a|..] == a)
              && (s == GENESIS ==> (Tip(c, a) == Tip(c, b) <==> a == b))
  {
    if CollisionFree(c, a, b) && Linked(c, a, s) && Linked(c, b, t) && Tip(c, a) == Tip(c, b) {
      if a != [] {
        SameTipSameSuffix(c, a, b, s, t);
      }
      if s == GENESIS {
        AnchoredTipIsUnique(c, a, b, t);
      }
    }
  }

  // ----- honest ledgers -----

  ghost predicate Honest(c: Scheme, lines: seq<Line>)
    requires c.rotation > 0
  {
    && (forall i | 0 <= i < |lines| :: lines[i].Record? && lines[i].entry.body.number == i + 1
          && lines[i].entry.hmac == Sign(c, Epoch(c, lines[i].entry.body.ts), lines[i].entry.body))
    && Linked(c, Entries(lines), GENESIS)
  }

  lemma {:induction false} AllRecords(lines: seq<Line>)
    requires forall i | 0 <= i < |lines| :: lines[i].Record?
    ensures |Entries(lines)| == |lines|
    ensures forall i | 0 <= i < |lines| :: Entries(lines)[i] == lines[i].entry
  {
    if lines != [] {
      AllRecords(lines[..|lines| - 1]);
    }
  }

  /** The last k lines of an honest ledger, walked as a whole. */
  lemma {:induction false} WholeTailPassesExactly(c: Scheme, lines: seq<Line>, k: nat)
    requires c.rotation > 0 && AvoidsGenesis(c, Entries(lines)) && Honest(c, lines) && 0 < k <= |lines|
    ensures Passes(Verify(c, lines[|lines| - k..], 0)) <==> k == |lines| || k == c.verifyMax
  {
    VerifyMeans(c, lines[|lines| - k..], 0);
    TailInOrderExactly(c, lines, k);
  }

  lemma {:induction false} TailInOrderExactly(c: Scheme, lines: seq<Line>, k: nat)
    requires c.rotation > 0 && AvoidsGenesis(c, Entries(lines)) && Honest(c, lines) && 0 < k <= |lines|
    ensures InOrder(c, lines[|lines| - k..]) <==> k == |lines| || k == c.verifyMax
  {
    HonestTail(c, lines, k);
    HonestLinks(c, lines);
    CutIsInOrder(c, lines[|lines| - k..], Entries(lines), |lines| - k);
  }

  lemma {:induction false} HonestLinks(c: Scheme, lines: seq<Line>)
    requires c.rotation > 0
    ensures Honest(c, lines) ==> Linked(c, Entries(lines), GENESIS) && |Entries(lines)| == |lines|
  {
    if Honest(c, lines) {
      AllRecords(lines);
    }
  }

  /** These lines are the signed entries of a chain from position `cut` on. */
  ghost predicate IsCut(c: Scheme, tail: seq<Line>, all: seq<Entry>, cut: nat)
    requires c.rotation > 0
  {
    && cut < |all| && tail != [] && Malformed !in tail && tail[0].Record? && tail[0].entry == all[cut]
    && Entries(tail) == all[cut..] && AllSigned(c, Entries(tail))
  }

  lemma {:induction false} CutIsInOrder(c: Scheme, tail: seq<Line>, all: seq<Entry>, cut: nat)
    requires c.rotation > 0
    ensures IsCut(c, tail, all, cut) && AvoidsGenesis(c, all) && Linked(c, all, GENESIS) ==>
              (InOrder(c, tail) <==> cut == 0 || |tail| == c.verifyMax)
  {
    if IsCut(c, tail, all, cut) && AvoidsGenesis(c, all) && Linked(c, all, GENESIS) {
      TailIsLinked(c, all, cut);
      assert StartOf(c, tail) == if |tail| == c.verifyMax then all[cut].body.prevHash else GENESIS;
    }
  }

  /** What is left of an honest ledger after cutting off its head passes a check
      of m entries exactly when the lines walked are the whole original ledger, or
      are as many as the configured window. */
  lemma {:induction false} TailPassesExactly(c: Scheme, lines: seq<Line>, k: nat, m: int)
    requires c.rotation > 0 && AvoidsGenesis(c, Entries(lines)) && Honest(c, lines) && 0 < k <= |lines|
    ensures var walked := if 0 < m < k then m else k;
            Passes(Verify(c, lines[|lines| - k..], m)) <==> walked == |lines| || walked == c.verifyMax
  {
    WholeTailPassesExactly(c, lines, if 0 < m < k then m else k);
    TailOfTail(c, lines, k, m);
  }

  lemma {:induction false} TailOfTail(c: Scheme, lines: seq<Line>, k: nat, m: int)
    requires c.rotation > 0 && 0 < k <= |lines|
    ensures var walked := if 0 < m < k then m else k;
            Verify(c, lines[|lines| - k..], m) == Verify(c, lines[|lines| - walked..], 0)
  {
    var walked := if 0 < m < k then m else k;
    assert Window(lines[|lines| - k..], m) == lines[|lines| - walked..];
  }

  /** So the check at boot misses a cut-off head exactly when at least the
      configured window is left. */
  lemma {:induction false} BootMissesHeadCutExactly(c: Scheme, lines: seq<Line>, k: nat)
    requires c.rotation > 0 && AvoidsGenesis(c, Entries(lines)) && Honest(c, lines) && 0 < k < |lines|
    ensures Passes(Verify(c, lines[|lines| - k..], c.verifyMax)) <==> 0 < c.verifyMax <= k
  {
    TailPassesExactly(c, lines, k, c.verifyMax);
  }

  /** And tamper evidence has its exception: cut down to the window, an honest
      ledger still passes a whole-file check and has kept its tip. */
  lemma {:induction false} CutToWindowKeepsTip(c: Scheme, lines: seq<Line>)
    requires c.rotation > 0 && AvoidsGenesis(c, Entries(lines)) && Honest(c, lines)
    requires 0 < c.verifyMax < |lines|
    ensures var cut := lines[|lines| - c.verifyMax..];
            && WholeCheck(c, lines, 0) && WholeCheck(c, cut, 0)
            && Tip(c, Entries(cut)) == Tip(c, Entries(lines)) && Entries(cut) != Entries(lines)
  {
    HonestTail(c, lines, c.verifyMax);
    WholeTailPassesExactly(c, lines, c.verifyMax);
    WholeTailPassesExactly(c, lines, |lines|);
    assert lines[0..] == lines;
  }

  lemma {:induction false} HonestTail(c: Scheme, lines: seq<Line>, k: nat)
    requires c.rotation > 0 && Honest(c, lines) && 0 < k <= |lines|
    ensures IsCut(c, lines[|lines| - k..], Entries(lines), |lines| - k)
  {
    var tail := lines[|lines| - k..];
    AllRecords(lines);
    AllRecords(tail);
    assert Entries(tail) == Entries(lines)[|lines| - k..];
    forall e | e in Entries(tail) ensures SignatureOk(c, e) {
      var i :| 0 <= i < |tail| && Entries(tail)[i] == e;
      assert tail[i] == lines[|lines| - k + i];
    }
  }

  /** Cut anywhere, a linked chain stays linked, but not to genesis. */
  lemma {:induction false} TailIsLinked(c: Scheme, all: seq<Entry>, cut: nat)
    requires AvoidsGenesis(c, all) && Linked(c, all, GENESIS) && cut < |all|
    ensures Linked(c, all[cut..], all[cut].body.prevHash)
    ensures Linked(c, all[cut..], GENESIS) <==> cut == 0
  {
    var es, start := all[cut..], all[cut].body.prevHash;
    forall i | 0 <= i < |es| ensures es[i].body.prevHash == HashBefore(c, es, start, i) {
      assert all[cut + i].body.prevHash == HashBefore(c, all, GENESIS, cut + i);
      assert i > 0 ==> es[i - 1] == all[cut + i - 1];
    }
    assert start == HashBefore(c, all, GENESIS, cut);
    if cut == 0 {
      assert es == all;
    } else {
      assert es[0].body.prevHash != HashBefore(c, es, GENESIS, 0);
    }
  }

  /** An honest ledger passes VerifyChain(m) exactly when the walk covers it all
      or m is the configured window. */
  lemma {:induction false} HonestPassesExactly(c: Scheme, lines: seq<Line>, m: int)
    requires c.rotation > 0 && AvoidsGenesis(c, Entries(lines)) && Honest(c, lines)
    ensures Passes(Verify(c, lines, m)) <==> m <= 0 || m >= |lines| || m == c.verifyMax
  {
    if lines != [] {
      TailPassesExactly(c, lines, |lines|, m);
      assert lines[0..] == lines;
    }
  }

  /** Hence the health probe, which checks ten entries, calls an honest ledger of
      more than ten entries broken unless the window is set to ten. */
  lemma {:induction false} HealthIsRightExactly(c: Scheme, lines: seq<Line>)
    requires c.rotation > 0 && AvoidsGenesis(c, Entries(lines)) && Honest(c, lines)
    ensures Passes(Verify(c, lines, 10)) <==> |lines| <= 10 || c.verifyMax == 10
  {
    HonestPassesExactly(c, lines, 10);
  }

  /** An honest ledger over a toy scheme with the default settings. */
  function ToyLedger(n: nat): seq<Line> {
    seq(n, i requires 0 <= i < n => Record(Entry(Body(i + 1, 0.0, "", if i == 0 then GENESIS else "h", ""), "s")))
  }

  /** Eleven honest entries are enough for the probe to call them broken. */
  lemma {:induction false} HealthRejectsElevenHonestEntries(c: Scheme)
    requires c == Scheme((e: Entry) => "h", (k: string, b: Body, p: string) => "s", (epoch: int) => "k", 86400, 100)
    ensures Honest(c, ToyLedger(11)) && Verify(c, ToyLedger(11), 10).Broken?
  {
    var lines := ToyLedger(11);
    AllRecords(lines);
    forall i | 0 <= i < 11 ensures Entries(lines)[i].body.prevHash == HashBefore(c, Entries(lines), GENESIS, i) {
      assert Entries(lines)[i] == lines[i].entry;
    }
    assert "h" != GENESIS by {
      assert |"h"| == 1 && |GENESIS| == 64;
    }
    HealthIsRightExactly(c, lines);
  }

  // ----- the ledger object -----

  function LastLine(lines: seq<Line>): Line {
    if lines == [] then Blank
    else if lines[|lines| - 1] != Blank then lines[|lines| - 1]
    else LastLine(lines[..|lines| - 1])
  }

  lemma {:induction false} HonestTip(c: Scheme, lines: seq<Line>)
    requires c.rotation > 0 && Honest(c, lines)
    ensures lines == [] ==> Tip(c, Entries(lines)) == GENESIS
    ensures lines != [] ==>
              var last := lines[|lines| - 1];
              LastLine(lines) == last && last.Record? && last.entry.body.number == |lines|
              && c.hash(last.entry) == Tip(c, Entries(lines))
  {
    AllRecords(lines);
  }

  lemma {:induction false} StoppedStays(c: Scheme, window: seq<Line>, i: nat, n: nat)
    requires c.rotation > 0 && i <= n <= |window| && WalkTo(c, window, i).Stopped?
    ensures WalkTo(c, window, n) == WalkTo(c, window, i)
  {
    if i < n {
      StoppedStays(c, window, i, n - 1);
    }
  }

  datatype OpenError = Unreadable | Tampered(number: int, reason: Reason)

  class IntegrityLedger {
    const scheme: Scheme
    var lines: seq<Line>
    var tipNumber: int
    var tipHash: string

    /** An honest file and a cached tip that agrees with it. */
    ghost predicate Valid()
      reads this
    {
      && scheme.rotation > 0
      && Honest(scheme, lines)
      && tipNumber == |lines|
      && tipHash == Tip(scheme, Entries(lines))
    }

    constructor (scheme: Scheme, lines: seq<Line>)
      ensures this.scheme == scheme && this.lines == lines && tipNumber == 0 && tipHash == GENESIS
    {
      this.scheme, this.lines := scheme, lines;
      tipNumber, tipHash := 0, GENESIS;
    }

    /** Opening a file: read the tip, then verify the tail unless told not to. */
    static method Open(scheme: Scheme, lines: seq<Line>, verifyAtBoot: bool)
      returns (r: Result<IntegrityLedger, OpenError>)
      requires scheme.rotation > 0
      ensures r.Success? ==> fresh(r.value) && r.value.scheme == scheme && r.value.lines == lines
      ensures r.Success? && verifyAtBoot ==> Passes(Verify(scheme, lines, scheme.verifyMax))
      ensures Honest(scheme, lines) && AvoidsGenesis(scheme, Entries(lines)) ==> r.Success? && r.value.Valid()
    {
      var ledger := new IntegrityLedger(scheme, lines);
      var readable := ledger.LoadTip();
      if Honest(scheme, lines) && AvoidsGenesis(scheme, Entries(lines)) {
        HonestTip(scheme, lines);
        HonestPassesExactly(scheme, lines, scheme.verifyMax);
      }
      if !readable {
        return Failure(Unreadable);
      }
      if verifyAtBoot {
        var v := ledger.VerifyChain(scheme.verifyMax);
        if v.Broken? {
          return Failure(Tampered(v.number, v.reason));
        }
      }
      return Success(ledger);
    }

    /** Read number and hash of the last entry.  False when the last line that is
        not blank cannot be read. */
    method LoadTip() returns (readable: bool)
      modifies `tipNumber, `tipHash
      ensures readable <==> !LastLine(lines).Malformed?
      ensures LastLine(lines).Record? ==>
                tipNumber == LastLine(lines).entry.body.number && tipHash == scheme.hash(LastLine(lines).entry)
      ensures !LastLine(lines).Record? && lines != [] ==> tipNumber == old(tipNumber) && tipHash == old(tipHash)
      ensures lines == [] ==> tipNumber == 0 && tipHash == GENESIS
    {
      if lines == [] {
        tipNumber, tipHash := 0, GENESIS;
        return true;
      }
      var last := Blank;
      for i := 0 to |lines|
        invariant last == LastLine(lines[..i])
      {
        assert lines[..i + 1][..i] == lines[..i];
        if lines[i] != Blank {
          last := lines[i];
        }
      }
      assert lines[..|lines|] == lines;
      match last
      case Malformed =>
        return false;
      case Blank =>
        return true;
      case Record(e) =>
        tipNumber, tipHash := e.body.number, scheme.hash(e);
        return true;
    }

    /** Sign and append one entry at time `now`.  An honest ledger stays honest. */
    method Append(kind: string, payload: string, now: real) returns (e: Entry)
      requires scheme.rotation > 0
      modifies this
      ensures e.body == Body(old(tipNumber) + 1, now, kind, old(tipHash), payload)
      ensures e.hmac == Sign(scheme, Epoch(scheme, now), e.body)
      ensures lines == old(lines) + [Record(e)]
      ensures tipNumber == old(tipNumber) + 1 && tipHash == scheme.hash(e)
      ensures old(Valid()) ==> Valid()
    {
      var body := Body(tipNumber + 1, now, kind, tipHash, payload);
      e := Entry(body, Sign(scheme, Epoch(scheme, now), body));
      ghost var before := lines;
      lines := lines + [Record(e)];
      assert lines[..|before|] == before;
      assert Entries(lines) == Entries(before) + [e];
      LinkedAppend(scheme, Entries(before), e, GENESIS);
      if old(Valid()) {
        AllRecords(before);
      }
      tipNumber := tipNumber + 1;
      tipHash := scheme.hash(e);
    }

    /** The key of the entry's own period first, then the one before. */
    method CheckSignature(e: Entry) returns (signed: bool)
      requires scheme.rotation > 0
      ensures signed == SignatureOk(scheme, e)
    {
      var epoch := Epoch(scheme, e.body.ts);
      signed := Sign(scheme, epoch, e.body) == e.hmac;
      if !signed {
        signed := Sign(scheme, epoch - 1, e.body) == e.hmac;
      }
    }

    /** Walk the whole file or its last lines, checking every link. */
    method VerifyChain(maxEntries: int) returns (v: Verdict)
      requires scheme.rotation > 0
      ensures v == Verify(scheme, lines, maxEntries)
    {
      if lines == [] {
        return EmptyLedger;
      }
      var window := lines;
      if maxEntries > 0 && maxEntries < |lines| {
        window := lines[|lines| - maxEntries..];
      }
      var walk := Going(GENESIS, 0, 0);
      for n := 0 to |window|
        invariant walk.Going? && WalkTo(scheme, window, n) == walk
      {
        walk := CheckLine(window[n], n + 1, |window|, walk.prevHash, walk.prevNumber, walk.count);
        if walk.Stopped? {
          StoppedStays(scheme, window, n + 1, |window|);
          return walk.verdict;
        }
      }
      return Verified(walk.count);
    }

    /** Check one line against the hash, number and count so far.  A mismatch at
        the first line of a window of the configured size is taken on trust. */
    method CheckLine(line: Line, lineNo: nat, size: nat, prevHash: string, prevNumber: int,
                     count: nat) returns (w: Walk)
      requires scheme.rotation > 0
      ensures w == WalkLine(scheme, Going(prevHash, prevNumber, count), line, lineNo, size)
    {
      match line
      case Blank =>
        return Going(prevHash, prevNumber, count);
      case Malformed =>
        return Stopped(Broken(prevNumber + 1, ParseError));
      case Record(e) =>
        var expected := prevHash;
        if e.body.prevHash != expected {
          if lineNo == 1 && size == scheme.verifyMax {
            expected := e.body.prevHash;
          } else {
            return Stopped(Broken(e.body.number, PrevHashMismatch));
          }
        }
        var signed := CheckSignature(e);
        if !signed {
          return Stopped(Broken(e.body.number, HmacMismatch));
        }
        return Going(scheme.hash(e), e.body.number, count + 1);
    }
  }
}
