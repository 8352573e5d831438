/** Regenerating the text between two marker lines of a document, as a lens:
    what is outside stays, the last write wins, separate regions commute. */
module MarkerText {
  import opened Basics

  /** A text is its lines; there is always at least one. */
  type Text = seq<string>

  // ----- marker lines -----

  function TrimLeft(s: string): string {
    if s != [] && (s[0] == ' ' || s[0] == '\t') then TrimLeft(s[1..]) else s
  }

  function TrimRight(s: string): string {
    if s != [] && (s[|s| - 1] == ' ' || s[|s| - 1] == '\t') then TrimRight(s[..|s| - 1]) else s
  }

  /** The marker alone on its line, blanks around it aside. */
  predicate IsMarker(line: string, marker: string) {
    TrimRight(TrimLeft(line)) == marker
  }

  function Occurrences(lines: Text, marker: string): seq<nat> {
    if lines == [] then [] else
      Occurrences(lines[..|lines| - 1], marker) + if IsMarker(lines[|lines| - 1], marker) then [|lines| - 1] else []
  }

  ghost predicate Only(lines: Text, marker: string, i: nat) {
    i < |lines| && forall k | 0 <= k < |lines| :: IsMarker(lines[k], marker) <==> k == i
  }

  ghost predicate Clean(lines: Text, marker: string) {
    forall k | 0 <= k < |lines| :: !IsMarker(lines[k], marker)
  }

  lemma {:induction false} OccurrencesMeans(lines: Text, marker: string)
    ensures forall i: nat :: i in Occurrences(lines, marker) <==> i < |lines| && IsMarker(lines[i], marker)
    ensures forall a, b :: 0 <= a < b < |Occurrences(lines, marker)| ==>
        Occurrences(lines, marker)[a] < Occurrences(lines, marker)[b]
  {
    if lines != [] {
      OccurrencesMeans(lines[..|lines| - 1], marker);
      var front := Occurrences(lines[..|lines| - 1], marker);
      forall a | 0 <= a < |front| ensures front[a] < |lines| - 1 {
        assert front[a] in front;
      }
    }
  }

  lemma {:induction false} OnceMeans(lines: Text, marker: string, i: nat)
    ensures Occurrences(lines, marker) == [i] <==> Only(lines, marker, i)
  {
    var occ := Occurrences(lines, marker);
    OccurrencesMeans(lines, marker);
    assert |occ| > 1 ==> occ[0] < occ[1];
    if occ == [i] {
      assert i in occ;
      assert forall k: nat | k < |lines| && IsMarker(lines[k], marker) :: k in occ;
    }
    if Only(lines, marker, i) {
      assert i in occ;
      forall a | 0 <= a < |occ| ensures occ[a] == i {
        assert occ[a] in occ;
      }
    }
  }

  // ----- replacing a region -----

  datatype Region = Region(start: string, end: string)

  datatype MarkerError = StartNotUnique | EndNotUnique | EndBeforeStart

  function Replace(lines: Text, r: Region, replacement: Text): Result<Text, MarkerError> {
    var starts, ends := Occurrences(lines, r.start), Occurrences(lines, r.end);
    if |starts| != 1 then Failure(StartNotUnique)
    else if |ends| != 1 then Failure(EndNotUnique)
    else if starts[0] >= ends[0] then Failure(EndBeforeStart)
    else
      OccurrencesInRange(lines, r.start);
      OccurrencesInRange(lines, r.end);
      Success(Splice(lines, starts[0], ends[0], replacement))
  }

  lemma {:induction false} OccurrencesInRange(lines: Text, marker: string)
    ensures forall a | 0 <= a < |Occurrences(lines, marker)| :: Occurrences(lines, marker)[a] < |lines|
  {
    OccurrencesMeans(lines, marker);
    forall a | 0 <= a < |Occurrences(lines, marker)| ensures Occurrences(lines, marker)[a] < |lines| {
      assert Occurrences(lines, marker)[a] in Occurrences(lines, marker);
    }
  }

  /** Keep up to line i and from line j on. */
  function Splice(lines: Text, i: nat, j: nat, replacement: Text): Text
    requires i < j < |lines|
  {
    lines[..i + 1] + replacement + lines[j..]
  }

  /** The region's markers are at lines i and j. */
  ghost predicate At(lines: Text, r: Region, i: nat, j: nat) {
    Only(lines, r.start, i) && Only(lines, r.end, j) && i < j
  }

  /** Replacing succeeds exactly when both markers occur once and in order. */
  lemma {:induction false} ReplaceMeans(lines: Text, r: Region, replacement: Text)
    ensures Replace(lines, r, replacement).Success? <==> exists i: nat, j: nat :: At(lines, r, i, j)
    ensures forall i: nat, j: nat | At(lines, r, i, j) ::
        Replace(lines, r, replacement) == Success(Splice(lines, i, j, replacement))
  {
    var starts, ends := Occurrences(lines, r.start), Occurrences(lines, r.end);
    if Replace(lines, r, replacement).Success? {
      OnceMeans(lines, r.start, starts[0]);
      OnceMeans(lines, r.end, ends[0]);
      assert At(lines, r, starts[0], ends[0]);
    }
    forall i: nat, j: nat | At(lines, r, i, j)
      ensures Replace(lines, r, replacement) == Success(Splice(lines, i, j, replacement))
    {
      OnceMeans(lines, r.start, i);
      OnceMeans(lines, r.end, j);
    }
  }

  // ----- the text itself -----

  function Join(lines: Text): string
    requires lines != []
  {
    if |lines| == 1 then lines[0] else lines[0] + "\n" + Join(lines[1..])
  }

  lemma {:induction false} JoinAppend(a: Text, b: Text)
    requires a != [] && b != []
    ensures Join(a + b) == Join(a) + "\n" + Join(b)
  {
    if |a| > 1 {
      JoinAppend(a[1..], b);
      assert (a + b)[1..] == a[1..] + b;
    } else {
      assert (a + b)[1..] == b;
    }
  }

  /** On the text as a string: everything through the start line, the
      replacement, and everything from the end line on, each on lines of its own. */
  lemma {:induction false} SpliceIsTextual(lines: Text, i: nat, j: nat, replacement: Text)
    requires i < j < |lines| && replacement != []
    ensures Join(Splice(lines, i, j, replacement))
            == Join(lines[..i + 1]) + "\n" + Join(replacement) + "\n" + Join(lines[j..])
  {
    JoinAppend(lines[..i + 1] + replacement, lines[j..]);
    JoinAppend(lines[..i + 1], replacement);
  }

  // ----- where a marker is after a splice -----

  /** A marker outside the region moves along with its line. */
  lemma {:induction false} Relocate(lines: Text, i: nat, j: nat, replacement: Text, marker: string, p: nat)
    requires i < j < |lines| && Only(lines, marker, p) && Clean(replacement, marker)
    ensures p <= i ==> Only(Splice(lines, i, j, replacement), marker, p)
    ensures p >= j ==> Only(Splice(lines, i, j, replacement), marker, p - j + i + 1 + |replacement|)
    ensures i < p < j ==> Clean(Splice(lines, i, j, replacement), marker)
  {
    var out := Splice(lines, i, j, replacement);
    forall k | 0 <= k < |out|
      ensures out[k] == if k <= i then lines[k]
                        else if k <= i + |replacement| then replacement[k - i - 1]
                        else lines[k - i - 1 - |replacement| + j]
    {
    }
  }

  /** A marker in the replacement stays in the text. */
  lemma {:induction false} DirtyStays(lines: Text, i: nat, j: nat, replacement: Text, marker: string, p: nat)
    requires i < j < |lines| && Only(lines, marker, p) && (p == i || p == j) && !Clean(replacement, marker)
    ensures forall q: nat :: !Only(Splice(lines, i, j, replacement), marker, q)
  {
    var out := Splice(lines, i, j, replacement);
    var k :| 0 <= k < |replacement| && IsMarker(replacement[k], marker);
    assert out[i + 1 + k] == replacement[k];
    assert out[i] == lines[i] && out[i + 1 + |replacement|] == lines[j];
  }

  lemma {:induction false} StillAt(lines: Text, r: Region, i: nat, j: nat, replacement: Text)
    requires At(lines, r, i, j) && Clean(replacement, r.start) && Clean(replacement, r.end)
    ensures At(Splice(lines, i, j, replacement), r, i, i + 1 + |replacement|)
  {
    Relocate(lines, i, j, replacement, r.start, i);
    Relocate(lines, i, j, replacement, r.end, j);
  }

  // ----- the lens laws -----

  /** What was written is what is read; everything else is untouched. */
  lemma {:induction false} PutGet(lines: Text, r: Region, i: nat, j: nat, replacement: Text)
    requires At(lines, r, i, j) && Clean(replacement, r.start) && Clean(replacement, r.end)
    ensures var out := Splice(lines, i, j, replacement);
            && Replace(lines, r, replacement) == Success(out)
            && At(out, r, i, i + 1 + |replacement|)
            && out[i + 1..i + 1 + |replacement|] == replacement
            && out[..i + 1] == lines[..i + 1]
            && out[i + 1 + |replacement|..] == lines[j..]
  {
    ReplaceMeans(lines, r, replacement);
    StillAt(lines, r, i, j, replacement);
  }

  /** Writing back the lines of a region changes nothing.  An empty region is the
      exception: a replacement has at least one line, so any write adds some. */
  lemma {:induction false} GetPut(lines: Text, r: Region, i: nat, j: nat)
    requires At(lines, r, i, j)
    ensures j > i + 1 ==> Replace(lines, r, lines[i + 1..j]) == Success(lines)
    ensures j == i + 1 ==> forall x: Text | x != [] :: Replace(lines, r, x) != Success(lines)
  {
    ReplaceMeans(lines, r, lines[i + 1..j]);
    assert Splice(lines, i, j, lines[i + 1..j]) == lines;
    forall x: Text | x != [] && j == i + 1 ensures Replace(lines, r, x) != Success(lines) {
      ReplaceMeans(lines, r, x);
      assert |Splice(lines, i, j, x)| > |lines|;
    }
  }

  lemma {:induction false} AtIsNotClean(lines: Text, r: Region, i: nat, j: nat)
    requires At(lines, r, i, j)
    ensures !Clean(lines, r.start) && !Clean(lines, r.end)
  {
    assert IsMarker(lines[i], r.start) && IsMarker(lines[j], r.end);
  }

  lemma {:induction false} DirtyWriteLosesTheRegion(lines: Text, r: Region, i: nat, j: nat, x: Text)
    requires At(lines, r, i, j) && !(Clean(x, r.start) && Clean(x, r.end))
    ensures forall m: nat, n: nat :: !At(Splice(lines, i, j, x), r, m, n)
  {
    if !Clean(x, r.start) {
      DirtyStays(lines, i, j, x, r.start, i);
    } else {
      DirtyStays(lines, i, j, x, r.end, j);
    }
  }

  /** A second write succeeds exactly when the first one contained no marker
      line of the region, and then the last write wins. */
  lemma {:induction false} PutPut(lines: Text, r: Region, first: Text, second: Text)
    requires Replace(lines, r, first).Success?
    ensures var again := Replace(Replace(lines, r, first).value, r, second);
            && (again.Success? <==> Clean(first, r.start) && Clean(first, r.end))
            && (again.Success? ==> again == Replace(lines, r, second))
  {
    ReplaceMeans(lines, r, first);
    var i: nat, j: nat :| At(lines, r, i, j);
    PutPutAt(lines, r, i, j, first, second);
  }

  lemma {:induction false} PutPutAt(lines: Text, r: Region, i: nat, j: nat, first: Text, second: Text)
    requires At(lines, r, i, j)
    ensures var again := Replace(Splice(lines, i, j, first), r, second);
            && (again.Success? <==> Clean(first, r.start) && Clean(first, r.end))
            && (again.Success? ==> again == Replace(lines, r, second))
  {
    var out := Splice(lines, i, j, first);
    ReplaceMeans(lines, r, second);
    ReplaceMeans(out, r, second);
    if Clean(first, r.start) && Clean(first, r.end) {
      StillAt(lines, r, i, j, first);
      SpliceAgain(lines, i, j, first, second);
    } else {
      DirtyWriteLosesTheRegion(lines, r, i, j, first);
    }
  }

  lemma {:induction false} SpliceAgain(lines: Text, i: nat, j: nat, first: Text, second: Text)
    requires i < j < |lines|
    ensures Splice(Splice(lines, i, j, first), i, i + 1 + |first|, second) == Splice(lines, i, j, second)
  {
    assert Splice(lines, i, j, first)[..i + 1] == lines[..i + 1];
    assert Splice(lines, i, j, first)[i + 1 + |first|..] == lines[j..];
  }

  // ----- two regions -----

  ghost predicate CleanOf(lines: Text, r: Region) {
    Clean(lines, r.start) && Clean(lines, r.end)
  }

  /** The region a, replaced, moves the later region b by the change in length. */
  lemma {:induction false} LaterRegionMoves(lines: Text, a: Region, b: Region, i: nat, j: nat, p: nat, q: nat, x: Text)
    requires At(lines, a, i, j) && At(lines, b, p, q) && CleanOf(x, b)
    ensures j < p ==> At(Splice(lines, i, j, x), b, p - j + i + 1 + |x|, q - j + i + 1 + |x|)
    ensures q < i ==> At(Splice(lines, i, j, x), b, p, q)
    ensures i < p < j || i < q < j ==> forall m: nat, n: nat :: !At(Splice(lines, i, j, x), b, m, n)
  {
    Relocate(lines, i, j, x, b.start, p);
    Relocate(lines, i, j, x, b.end, q);
    if i < p < j || i < q < j {
      var out := Splice(lines, i, j, x);
      forall m: nat, n: nat ensures !At(out, b, m, n) {
        if At(out, b, m, n) {
          AtIsNotClean(out, b, m, n);
          assert false;
        }
      }
    }
  }

  /** Separate regions commute. */
  lemma {:induction false} SeparateRegionsCommute(lines: Text, a: Region, b: Region, i: nat, j: nat, p: nat,
                                                  q: nat, x: Text, y: Text)
    requires At(lines, a, i, j) && At(lines, b, p, q) && (j < p || q < i)
    requires CleanOf(x, b) && CleanOf(y, a)
    ensures var ab, ba := Replace(Splice(lines, i, j, x), b, y), Replace(Splice(lines, p, q, y), a, x);
            ab.Success? && ab == ba
  {
    if j < p {
      EarlierThenLater(lines, a, b, i, j, p, q, x, y);
    } else {
      EarlierThenLater(lines, b, a, p, q, i, j, y, x);
    }
  }

  lemma {:induction false} EarlierThenLater(lines: Text, a: Region, b: Region, i: nat, j: nat, p: nat, q: nat,
                                            x: Text, y: Text)
    requires At(lines, a, i, j) && At(lines, b, p, q) && j < p
    requires CleanOf(x, b) && CleanOf(y, a)
    ensures var ab, ba := Replace(Splice(lines, i, j, x), b, y), Replace(Splice(lines, p, q, y), a, x);
            ab.Success? && ab == ba
  {
    LaterRegionMoves(lines, a, b, i, j, p, q, x);
    LaterRegionMoves(lines, b, a, p, q, i, j, y);
    ReplaceMeans(Splice(lines, i, j, x), b, y);
    ReplaceMeans(Splice(lines, p, q, y), a, x);
    TwoSplices(lines, i, j, p, q, x, y);
  }

  lemma {:induction false} TwoSplices(lines: Text, i: nat, j: nat, p: nat, q: nat, x: Text, y: Text)
    requires i < j < p < q < |lines|
    ensures var d := i + 1 + |x| - j;
            Splice(Splice(lines, i, j, x), p + d, q + d, y) == Splice(Splice(lines, p, q, y), i, j, x)
  {
    var d := i + 1 + |x| - j;
    var whole := lines[..i + 1] + x + lines[j..p + 1] + y + lines[q..];
    assert Splice(lines, i, j, x)[..p + d + 1] == lines[..i + 1] + x + lines[j..p + 1];
    assert Splice(lines, i, j, x)[q + d..] == lines[q..];
    assert Splice(lines, p, q, y)[j..] == lines[j..p + 1] + y + lines[q..];
    assert Splice(lines, p, q, y)[..i + 1] == lines[..i + 1];
    assert Splice(Splice(lines, p, q, y), i, j, x) == whole;
  }

  /** With four different markers and replacements free of them, both orders of
      writing succeed if and only if the regions are separate. */
  lemma {:induction false} BothOrdersSucceedExactly(lines: Text, a: Region, b: Region, i: nat, j: nat, p: nat,
                                                    q: nat, x: Text, y: Text)
    requires At(lines, a, i, j) && At(lines, b, p, q)
    requires a.start !in {b.start, b.end} && a.end !in {b.start, b.end}
    requires CleanOf(x, b) && CleanOf(y, a)
    ensures Replace(Splice(lines, i, j, x), b, y).Success? && Replace(Splice(lines, p, q, y), a, x).Success?
            <==> j < p || q < i
  {
    assert IsMarker(lines[i], a.start) && IsMarker(lines[j], a.end) && IsMarker(lines[p], b.start) &&
        IsMarker(lines[q], b.end);
    assert i != p && i != q && j != p && j != q;
    if j < p || q < i {
      SeparateRegionsCommute(lines, a, b, i, j, p, q, x, y);
    } else {
      LaterRegionMoves(lines, a, b, i, j, p, q, x);
      LaterRegionMoves(lines, b, a, p, q, i, j, y);
      ReplaceMeans(Splice(lines, i, j, x), b, y);
      ReplaceMeans(Splice(lines, p, q, y), a, x);
    }
  }

  // ----- applying a list of replacements to a file -----

  datatype Mutation = Mutation(region: Region, replacement: Text)

  function Thread(lines: Text, mutations: seq<Mutation>, n: nat): Result<Text, MarkerError>
    requires n <= |mutations|
  {
    if n == 0 then Success(lines) else
      match Thread(lines, mutations, n - 1)
      case Failure(e) => Failure(e)
      case Success(t) => Replace(t, mutations[n - 1].region, mutations[n - 1].replacement)
  }

  /** The text ends in a newline. */
  predicate NewlineAtEnd(lines: Text) {
    |lines| >= 2 && lines[|lines| - 1] == ""
  }

  function Written(original: Text, updated: Text): Text {
    if updated == original || NewlineAtEnd(updated) then updated else updated + [""]
  }

  /** Apply all replacements in turn; report whether the file was rewritten. */
  method Apply(original: Text, mutations: seq<Mutation>) returns (r: Result<(bool, Text), MarkerError>)
    ensures r.Failure? <==> Thread(original, mutations, |mutations|).Failure?
    ensures r.Failure? ==> r.error == Thread(original, mutations, |mutations|).error
    ensures r.Success? ==>
              var t := Thread(original, mutations, |mutations|).value;
              r.value == (t != original, Written(original, t))
  {
    var updated := original;
    for n := 0 to |mutations|
      invariant Thread(original, mutations, n) == Success(updated)
    {
      var step := Replace(updated, mutations[n].region, mutations[n].replacement);
      if step.Failure? {
        FailureStays(original, mutations, n + 1, |mutations|);
        return Failure(step.error);
      }
      updated := step.value;
    }
    if updated == original {
      return Success((false, original));
    }
    if !NewlineAtEnd(updated) {
      return Success((true, updated + [""]));
    }
    return Success((true, updated));
  }

  lemma {:induction false} FailureStays(lines: Text, mutations: seq<Mutation>, m: nat, n: nat)
    requires m <= n <= |mutations| && Thread(lines, mutations, m).Failure?
    ensures Thread(lines, mutations, n) == Thread(lines, mutations, m)
  {
    if m < n {
      FailureStays(lines, mutations, m, n - 1);
    }
  }

  /** A blank last line changes nothing about where the markers are. */
  lemma {:induction false} ReplaceExtends(lines: Text, r: Region, x: Text)
    requires Replace(lines, r, x).Success? && r.start != "" && r.end != ""
    ensures Replace(lines + [""], r, x) == Success(Replace(lines, r, x).value + [""])
  {
    ReplaceMeans(lines, r, x);
    ReplaceMeans(lines + [""], r, x);
    var i: nat, j: nat :| At(lines, r, i, j);
    assert At(lines + [""], r, i, j);
    assert Splice(lines + [""], i, j, x) == Splice(lines, i, j, x) + [""];
  }

  /** Reconciling a document with two separate regions a second time, with the
      same tables, does not touch it. */
  lemma {:induction false} SecondApplyIsQuiet(original: Text, a: Mutation, b: Mutation, i: nat, j: nat, p: nat, q: nat)
    requires At(original, a.region, i, j) && At(original, b.region, p, q) && (j < p || q < i)
    requires CleanOf(a.replacement, a.region) && CleanOf(a.replacement, b.region)
    requires CleanOf(b.replacement, a.region) && CleanOf(b.replacement, b.region)
    requires "" !in {a.region.start, a.region.end, b.region.start, b.region.end}
    ensures var once := Thread(original, [a, b], 2);
            && once.Success?
            && Thread(once.value, [a, b], 2) == once
            && Thread(Written(original, once.value), [a, b], 2) == Success(Written(original, once.value))
  {
    var x, y := Splice(original, i, j, a.replacement), Splice(original, p, q, b.replacement);
    ReplaceMeans(original, a.region, a.replacement);
    ReplaceMeans(original, b.region, b.replacement);
    SeparateRegionsCommute(original, a.region, b.region, i, j, p, q, a.replacement, b.replacement);
    ThreadTwo(original, a, b);
    var t := Replace(x, b.region, b.replacement).value;
    PutPut(y, a.region, a.replacement, a.replacement);
    PutPut(x, b.region, b.replacement, b.replacement);
    ThreadTwo(t, a, b);
    ReplaceExtends(t, a.region, a.replacement);
    ReplaceExtends(t, b.region, b.replacement);
    ThreadTwo(t + [""], a, b);
  }

  lemma {:induction false} ThreadTwo(lines: Text, a: Mutation, b: Mutation)
    ensures Replace(lines, a.region, a.replacement).Success? ==>
              Thread(lines, [a, b], 2) ==
                Replace(Replace(lines, a.region, a.replacement).value, b.region, b.replacement)
  {
    assert Thread(lines, [a, b], 1) == Replace(lines, a.region, a.replacement) by {
      assert Thread(lines, [a, b], 0) == Success(lines);
    }
  }
}
