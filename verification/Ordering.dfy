/** Comparing strings and sorting, as the library sort does it: stably, by a key. */
module Ordering {

  /** Character-wise lexicographic order. */
  predicate StrictlyBefore(a: string, b: string) {
    b != [] && (a == [] || a[0] < b[0] || (a[0] == b[0] && StrictlyBefore(a[1..], b[1..])))
  }

  lemma {:induction false} StringOrder(a: string, b: string, c: string)
    ensures !(StrictlyBefore(a, b) && StrictlyBefore(b, a))
    ensures StrictlyBefore(a, b) || StrictlyBefore(b, a) || a == b
    ensures StrictlyBefore(a, c) ==> StrictlyBefore(a, b) || StrictlyBefore(b, c)
  {
    if a != [] && b != [] {
      assert a == [a[0]] + a[1..] && b == [b[0]] + b[1..];
      StringOrder(a[1..], b[1..], if c == [] then [] else c[1..]);
    }
  }

  // ----- stable sorting -----

  /** Stable insertion: equal keys keep their order. */
  function Insert<T>(x: T, s: seq<T>, before: (T, T) -> bool): seq<T> {
    if s == [] || !before(s[0], x) then [x] + s else [s[0]] + Insert(x, s[1..], before)
  }

  function Sort<T>(s: seq<T>, before: (T, T) -> bool): seq<T> {
    if s == [] then [] else Insert(s[0], Sort(s[1..], before), before)
  }

  lemma {:induction false} InsertMembers<T>(x: T, s: seq<T>, before: (T, T) -> bool)
    ensures forall y :: y in Insert(x, s, before) <==> y == x || y in s
  {
    if s != [] && before(s[0], x) {
      InsertMembers(x, s[1..], before);
      assert s == [s[0]] + s[1..];
    }
  }

  lemma {:induction false} SortMembers<T>(s: seq<T>, before: (T, T) -> bool)
    ensures forall y :: y in Sort(s, before) <==> y in s
  {
    if s != [] {
      SortMembers(s[1..], before);
      InsertMembers(s[0], Sort(s[1..], before), before);
      assert s == [s[0]] + s[1..];
    }
  }

  /** A strict order in which incomparable things are interchangeable. */
  ghost predicate WeakOrder<T(!new)>(before: (T, T) -> bool) {
    && (forall x, y :: before(x, y) ==> !before(y, x))
    && (forall x, y, z :: before(x, z) ==> before(x, y) || before(y, z))
  }

  ghost predicate InOrder<T>(s: seq<T>, before: (T, T) -> bool) {
    forall i, j | 0 <= i < j < |s| :: !before(s[j], s[i])
  }

  lemma {:induction false} TailInOrder<T(!new)>(x: T, s: seq<T>, before: (T, T) -> bool)
    requires InOrder([x] + s, before)
    ensures InOrder(s, before) && forall y | y in s :: !before(y, x)
  {
    var longer := [x] + s;
    forall i, j | 0 <= i < j < |s| ensures !before(s[j], s[i]) {
      assert longer[i + 1] == s[i] && longer[j + 1] == s[j];
    }
    forall y | y in s ensures !before(y, x) {
      var k :| 0 <= k < |s| && s[k] == y;
      assert longer[0] == x && longer[k + 1] == y;
    }
  }

  lemma {:induction false} ConsInOrder<T(!new)>(x: T, s: seq<T>, before: (T, T) -> bool)
    requires InOrder(s, before) && forall y | y in s :: !before(y, x)
    ensures InOrder([x] + s, before)
  {
    var longer := [x] + s;
    forall i, j | 0 <= i < j < |longer| ensures !before(longer[j], longer[i]) {
      assert longer[j] == s[j - 1] && s[j - 1] in s;
      assert i > 0 ==> longer[i] == s[i - 1];
    }
  }

  lemma {:induction false} InsertInOrder<T(!new)>(x: T, s: seq<T>, before: (T, T) -> bool)
    requires WeakOrder(before) && InOrder(s, before)
    ensures InOrder(Insert(x, s, before), before)
    ensures multiset(Insert(x, s, before)) == multiset(s) + multiset{x}
  {
    if s == [] {
      ConsInOrder(x, s, before);
    } else {
      var y, rest := s[0], s[1..];
      assert s == [y] + rest;
      TailInOrder(y, rest, before);
      if before(y, x) {
        InsertInOrder(x, rest, before);
        InsertMembers(x, rest, before);
        ConsInOrder(y, Insert(x, rest, before), before);
      } else {
        ConsInOrder(x, s, before);
      }
    }
  }

  lemma {:induction false} SortInOrder<T(!new)>(s: seq<T>, before: (T, T) -> bool)
    requires WeakOrder(before)
    ensures InOrder(Sort(s, before), before)
    ensures multiset(Sort(s, before)) == multiset(s)
  {
    if s != [] {
      SortInOrder(s[1..], before);
      InsertInOrder(s[0], Sort(s[1..], before), before);
      assert s == [s[0]] + s[1..];
    }
  }

  /** Two ordered rearrangements of the same things are the same list, if the
      order tells any two different ones apart. */
  lemma {:induction false} OrderedIsUnique<T(!new)>(s: seq<T>, t: seq<T>, before: (T, T) -> bool)
    requires WeakOrder(before) && InOrder(s, before) && InOrder(t, before)
    requires multiset(s) == multiset(t)
    requires forall x, y | x in s && y in s && x != y :: before(x, y) || before(y, x)
    ensures s == t
  {
    assert |s| == |multiset(s)| == |multiset(t)| == |t|;
    if s != [] {
      assert s == [s[0]] + s[1..] && t == [t[0]] + t[1..];
      TailInOrder(s[0], s[1..], before);
      TailInOrder(t[0], t[1..], before);
      HeadsAgree(s, t, before);
      TailBag(s);
      TailBag(t);
      OrderedIsUnique(s[1..], t[1..], before);
    }
  }

  lemma {:induction false} HeadsAgree<T(!new)>(s: seq<T>, t: seq<T>, before: (T, T) -> bool)
    requires s != [] && t != [] && InOrder(s, before) && InOrder(t, before)
    requires multiset(s) == multiset(t)
    requires forall x, y | x in s && y in s && x != y :: before(x, y) || before(y, x)
    ensures s[0] == t[0]
  {
    assert t[0] in multiset(s) && s[0] in multiset(t);
    var i :| 0 <= i < |s| && s[i] == t[0];
    var j :| 0 <= j < |t| && t[j] == s[0];
  }

  lemma {:induction false} TailBag<T>(s: seq<T>)
    requires s != []
    ensures multiset(s[1..]) == multiset(s) - multiset{s[0]}
  {
    assert s == [s[0]] + s[1..];
  }
}
