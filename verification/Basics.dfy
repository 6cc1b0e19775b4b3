/** Result and option types shared by every module, and the guard that stands for a `throw`. */
module Basics {

  /** The largest integer that a number represents exactly, as all smaller ones. */
  const MAX_SAFE_INTEGER: int := 9007199254740991

  datatype Option<+T> = None | Some(value: T)

  /** A computation that either returns a value or throws. Usable with `:-`. */
  datatype Result<+T, +E> = Ok(value: T) | Err(error: E) {
    predicate IsFailure() {
      Err?
    }

    function PropagateFailure<U>(): Result<U, E>
      requires Err?
    {
      Err(error)
    }

    function Extract(): T
      requires Ok?
    {
      value
    }
  }

  datatype Guard<+E> = Holds | Broken(error: E) {
    predicate IsFailure() {
      Broken?
    }

    function PropagateFailure<U>(): Result<U, E>
      requires Broken?
    {
      Err(error)
    }
  }

  /** `:- Need(condition, error);` throws `error` unless `condition` holds. */
  function Need<E>(condition: bool, error: E): Guard<E> {
    if condition then Holds else Broken(error)
  }
}

/** Facts about sequences: duplicates, filters, counting and sorting. */
module Sequences {

  /** No element occurs twice. */
  predicate NoDup<T(==)>(s: seq<T>) {
    forall x :: x in multiset(s) ==> multiset(s)[x] == 1
  }

  lemma NoDupStep<T>(s: seq<T>)
    ensures s != [] ==> (NoDup(s) <==> s[0] !in s[1..] && NoDup(s[1..]))
  {
    if s != [] {
      assert s == [s[0]] + s[1..];
      assert forall x :: multiset(s)[x] == multiset(s[1..])[x] + if x == s[0] then 1 else 0;
      assert s[0] in multiset(s);
      assert forall x :: x in multiset(s[1..]) ==> x in multiset(s);
    }
  }

  lemma {:induction false} NoDupIndexed<T>(s: seq<T>, i: nat, j: nat)
    requires NoDup(s) && i < j < |s|
    ensures s[i] != s[j]
  {
    NoDupStep(s);
    if i == 0 {
      assert s[j] == s[1..][j - 1];
    } else {
      NoDupIndexed(s[1..], i - 1, j - 1);
    }
  }

  lemma {:induction false} NoDupFromIndex<T>(s: seq<T>)
    requires forall i, j :: 0 <= i < j < |s| ==> s[i] != s[j]
    ensures NoDup(s)
  {
    if s != [] {
      NoDupStep(s);
      var rest := s[1..];
      assert forall i :: 0 <= i < |rest| ==> rest[i] == s[i + 1];
      NoDupFromIndex(rest);
    }
  }

  lemma NoDupByIndex<T>(s: seq<T>)
    ensures NoDup(s) <==> forall i, j :: 0 <= i < j < |s| ==> s[i] != s[j]
  {
    if NoDup(s) {
      forall i, j | 0 <= i < j < |s| ensures s[i] != s[j] {
        NoDupIndexed(s, i, j);
      }
    } else if forall i, j :: 0 <= i < j < |s| ==> s[i] != s[j] {
      NoDupFromIndex(s);
    }
  }

  function ToSet<T(==)>(s: seq<T>): set<T> {
    set x | x in s
  }

  function Take<T>(s: seq<T>, n: int): seq<T> {
    if n <= 0 then [] else if n >= |s| then s else s[..n]
  }

  function Filter<T(!new)>(p: T -> bool, s: seq<T>): seq<T> {
    if s == [] then []
    else (if p(s[0]) then [s[0]] else []) + Filter(p, s[1..])
  }

  lemma {:induction false} FilterMembers<T(!new)>(p: T -> bool, s: seq<T>)
    ensures forall x :: x in Filter(p, s) <==> x in s && p(x)
  {
    if s != [] {
      FilterMembers(p, s[1..]);
      assert s == [s[0]] + s[1..];
    }
  }

  function Map<T, U>(f: T -> U, s: seq<T>): (r: seq<U>)
    ensures |r| == |s|
    ensures forall i :: 0 <= i < |s| ==> r[i] == f(s[i])
  {
    seq(|s|, i requires 0 <= i < |s| => f(s[i]))
  }

  function Sum(s: seq<int>): int {
    if s == [] then 0 else s[0] + Sum(s[1..])
  }

  lemma {:induction false} SumAppend(a: seq<int>, b: seq<int>)
    ensures Sum(a + b) == Sum(a) + Sum(b)
  {
    if a == [] {
      assert a + b == b;
    } else {
      assert (a + b)[1..] == a[1..] + b;
      SumAppend(a[1..], b);
    }
  }

  lemma {:induction false} FilterAppend<T(!new)>(p: T -> bool, a: seq<T>, b: seq<T>)
    ensures Filter(p, a + b) == Filter(p, a) + Filter(p, b)
  {
    if a == [] {
      assert a + b == b;
    } else {
      FilterAppend(p, a[1..], b);
      var head, tail := if p(a[0]) then [a[0]] else [], Filter(p, a[1..]);
      assert (a + b)[1..] == a[1..] + b;
      assert head + (tail + Filter(p, b)) == (head + tail) + Filter(p, b);
    }
  }

  lemma {:induction false} FilterNoDup<T(!new)>(p: T -> bool, s: seq<T>)
    requires NoDup(s)
    ensures NoDup(Filter(p, s))
  {
    if s != [] {
      NoDupStep(s);
      FilterNoDup(p, s[1..]);
      FilterMembers(p, s[1..]);
      var rest := Filter(p, s[1..]);
      NoDupStep([s[0]] + rest);
      assert Filter(p, s) == if p(s[0]) then [s[0]] + rest else rest;
      assert ([s[0]] + rest)[1..] == rest;
    }
  }

  lemma {:induction false} FilterMultiset<T(!new)>(p: T -> bool, s: seq<T>)
    ensures forall x :: multiset(Filter(p, s))[x] == if p(x) then multiset(s)[x] else 0
  {
    if s != [] {
      FilterMultiset(p, s[1..]);
      assert s == [s[0]] + s[1..];
    }
  }

  lemma FilterPermuted<T(!new)>(p: T -> bool, s: seq<T>, t: seq<T>)
    requires multiset(s) == multiset(t)
    ensures multiset(Filter(p, s)) == multiset(Filter(p, t))
  {
    FilterMultiset(p, s);
    FilterMultiset(p, t);
  }

  lemma {:induction false} NoDupMultiset<T>(s: seq<T>)
    ensures NoDup(s) <==> forall x :: x in s ==> multiset(s)[x] == 1
  {
    if s != [] {
      NoDupMultiset(s[1..]);
      assert s == [s[0]] + s[1..];
      assert forall x :: multiset(s)[x] == multiset(s[1..])[x] + if x == s[0] then 1 else 0;
      if forall x :: x in s ==> multiset(s)[x] == 1 {
        assert s[0] in s;
        forall x | x in s[1..] ensures multiset(s[1..])[x] == 1 {
          assert x in s;
        }
      }
    }
  }

  lemma NoDupPermuted<T>(s: seq<T>, t: seq<T>)
    requires NoDup(s) && multiset(s) == multiset(t)
    ensures NoDup(t) && |t| == |s| && ToSet(s) == ToSet(t)
  {
    NoDupMultiset(s);
    NoDupMultiset(t);
    assert forall x :: x in t <==> x in multiset(t);
    assert forall x :: x in s <==> x in multiset(s);
    assert |multiset(s)| == |s| && |multiset(t)| == |t|;
  }

  lemma {:induction false} NoDupCard<T>(s: seq<T>)
    requires NoDup(s)
    ensures |ToSet(s)| == |s|
  {
    if s != [] {
      NoDupStep(s);
      NoDupCard(s[1..]);
      assert ToSet(s) == {s[0]} + ToSet(s[1..]);
    }
  }

  lemma {:induction false} CardAtMost<T>(s: seq<T>)
    ensures |ToSet(s)| <= |s|
    ensures |ToSet(s)| == |s| ==> NoDup(s)
  {
    if s != [] {
      NoDupStep(s);
      CardAtMost(s[1..]);
      assert ToSet(s) == {s[0]} + ToSet(s[1..]);
    }
  }

  lemma {:induction false} NoDupConcat<T>(a: seq<T>, b: seq<T>)
    requires NoDup(a) && NoDup(b) && forall x :: x in a ==> x !in b
    ensures NoDup(a + b)
  {
    if a == [] {
      assert a + b == b;
    } else {
      assert (a + b)[1..] == a[1..] + b;
      NoDupStep(a);
      NoDupStep(a + b);
      assert a == [a[0]] + a[1..];
      NoDupConcat(a[1..], b);
    }
  }

  lemma {:induction false} NoDupSnoc<T>(s: seq<T>, x: T)
    ensures NoDup(s + [x]) <==> NoDup(s) && x !in s
  {
    if s != [] {
      assert (s + [x])[1..] == s[1..] + [x];
      NoDupStep(s);
      NoDupStep(s + [x]);
      NoDupSnoc(s[1..], x);
      assert s == [s[0]] + s[1..];
    }
  }

  lemma {:induction false} NoDupPrefix<T>(s: seq<T>, n: nat)
    requires NoDup(s) && n <= |s|
    ensures NoDup(s[..n])
  {
    if n > 0 {
      NoDupStep(s);
      NoDupStep(s[..n]);
      assert s[..n][1..] == s[1..][..n - 1];
      NoDupPrefix(s[1..], n - 1);
    }
  }

  lemma SubsetCard<T>(a: set<T>, b: set<T>)
    requires a <= b
    ensures |a| <= |b|
    ensures |a| == |b| ==> a == b
  {
    assert b == a + (b - a);
  }

  lemma MultisetWithout<T>(s: seq<T>, k: nat)
    requires k < |s|
    ensures multiset(s[..k] + s[k + 1..]) == multiset(s) - multiset{s[k]}
  {
    assert s == s[..k] + [s[k]] + s[k + 1..];
  }

  /** A permutation of `a` holds `a[0]` somewhere, and without it is a permutation of the rest. */
  lemma MatchHead<T>(a: seq<T>, b: seq<T>) returns (k: nat)
    requires a != [] && multiset(a) == multiset(b)
    ensures k < |b| && b[k] == a[0] && multiset(b[..k] + b[k + 1..]) == multiset(a[1..])
  {
    k := PositionOf(b, a[0]);
    MultisetWithout(b, k);
    assert a == [a[0]] + a[1..];
    assert multiset(a) == multiset{a[0]} + multiset(a[1..]);
  }

  lemma PositionOf<T>(s: seq<T>, x: T) returns (k: nat)
    requires x in multiset(s)
    ensures k < |s| && s[k] == x
  {
    k :| k < |s| && s[k] == x;
  }

  /** Duplicate-free sequences over the same elements are permutations of each other. */
  lemma SameElements<T(!new)>(a: seq<T>, b: seq<T>)
    requires NoDup(a) && NoDup(b) && ToSet(a) == ToSet(b)
    ensures multiset(a) == multiset(b) && |a| == |b|
  {
    NoDupCard(a);
    NoDupCard(b);
    NoDupMultiset(a);
    NoDupMultiset(b);
    forall x ensures multiset(a)[x] == multiset(b)[x] {
      assert x in a <==> x in ToSet(a);
      assert x in b <==> x in ToSet(b);
    }
  }

  lemma OnlyElement<T(!new)>(s: seq<T>, x: T)
    requires NoDup(s) && x in s && forall y :: y in s ==> y == x
    ensures s == [x]
  {
    NoDupCard(s);
    assert ToSet(s) == {x};
  }

  // ---------- sorting under a strict total order ----------

  ghost predicate StrictTotalOn<T(!new)>(less: (T, T) -> bool, s: seq<T>) {
    && (forall x :: x in s ==> !less(x, x))
    && (forall x, y :: x in s && y in s ==> x == y || less(x, y) || less(y, x))
    && (forall x, y, z :: x in s && y in s && z in s && less(x, y) && less(y, z) ==> less(x, z))
  }

  predicate Sorted<T>(less: (T, T) -> bool, s: seq<T>) {
    forall i, j :: 0 <= i < j < |s| ==> less(s[i], s[j])
  }

  /** The stable library sort of a copy of `s`. */
  function SortBy<T>(less: (T, T) -> bool, s: seq<T>): (r: seq<T>)
    ensures |r| == |s|
  {
    if s == [] then [] else Insert(less, s[0], SortBy(less, s[1..]))
  }

  function Insert<T>(less: (T, T) -> bool, x: T, s: seq<T>): (r: seq<T>)
    ensures |r| == |s| + 1
  {
    if s == [] || !less(s[0], x) then [x] + s else [s[0]] + Insert(less, x, s[1..])
  }

  lemma {:induction false} InsertKeeps<T>(less: (T, T) -> bool, x: T, s: seq<T>)
    ensures multiset(Insert(less, x, s)) == multiset(s) + multiset{x}
  {
    if !(s == [] || !less(s[0], x)) {
      InsertKeeps(less, x, s[1..]);
      assert s == [s[0]] + s[1..];
    }
  }

  lemma {:induction false} SortKeeps<T>(less: (T, T) -> bool, s: seq<T>)
    ensures multiset(SortBy(less, s)) == multiset(s)
  {
    if s != [] {
      SortKeeps(less, s[1..]);
      InsertKeeps(less, s[0], SortBy(less, s[1..]));
      assert s == [s[0]] + s[1..];
    }
  }

  lemma {:induction false} InsertSorts<T(!new)>(less: (T, T) -> bool, x: T, s: seq<T>)
    requires Sorted(less, s) && x !in s && StrictTotalOn(less, [x] + s)
    ensures Sorted(less, Insert(less, x, s))
  {
    var all := [x] + s;
    assert x in all && forall y :: y in s ==> y in all;
    if s == [] {
    } else if less(s[0], x) {
      assert StrictTotalOn(less, [x] + s[1..]) by {
        assert forall y :: y in [x] + s[1..] ==> y in all;
      }
      InsertSorts(less, x, s[1..]);
      InsertKeeps(less, x, s[1..]);
      var r := Insert(less, x, s[1..]);
      forall j | 0 <= j < |r| ensures less(s[0], r[j]) {
        assert r[j] in multiset(r);
        assert r[j] == x || r[j] in s[1..];
      }
    } else {
      assert less(x, s[0]);
      forall j | 0 <= j < |s| ensures less(x, s[j]) {
        if j > 0 {
          assert less(s[0], s[j]);
        }
      }
    }
  }

  lemma {:induction false} SortSorts<T(!new)>(less: (T, T) -> bool, s: seq<T>)
    requires NoDup(s) && StrictTotalOn(less, s)
    ensures Sorted(less, SortBy(less, s))
  {
    if s != [] {
      NoDupStep(s);
      SortSorts(less, s[1..]);
      var r := SortBy(less, s[1..]);
      SortKeeps(less, s[1..]);
      assert forall y :: y in r <==> y in multiset(r);
      assert forall y :: y in [s[0]] + r ==> y in s;
      InsertSorts(less, s[0], r);
    }
  }

  lemma SortedHeads<T(!new)>(less: (T, T) -> bool, a: seq<T>, b: seq<T>)
    requires Sorted(less, a) && Sorted(less, b) && a != [] && b != []
    requires a[0] in b && b[0] in a && !less(a[0], a[0])
    requires less(a[0], b[0]) && less(b[0], a[0]) ==> less(a[0], a[0])
    ensures a[0] == b[0]
  {
    var i :| 0 <= i < |b| && b[i] == a[0];
    var j :| 0 <= j < |a| && a[j] == b[0];
  }

  lemma SortedTail<T(!new)>(less: (T, T) -> bool, a: seq<T>)
    requires Sorted(less, a) && a != [] && !less(a[0], a[0])
    ensures Sorted(less, a[1..]) && forall x :: x in a[1..] <==> x in a && x != a[0]
  {
    assert a == [a[0]] + a[1..];
    forall x | x in a[1..] ensures x != a[0] {
      var i :| 0 <= i < |a[1..]| && a[1..][i] == x;
      assert less(a[0], a[i + 1]);
    }
  }

  lemma StrictTotalPart<T(!new)>(less: (T, T) -> bool, s: seq<T>, part: seq<T>)
    requires StrictTotalOn(less, s) && forall x :: x in part ==> x in s
    ensures StrictTotalOn(less, part)
  {
  }

  /** Two sorted sequences over the same elements are the same sequence. */
  lemma {:induction false} SortedUnique<T(!new)>(less: (T, T) -> bool, a: seq<T>, b: seq<T>)
    requires Sorted(less, a) && Sorted(less, b) && |a| == |b| && forall x :: x in a <==> x in b
    requires StrictTotalOn(less, a)
    ensures a == b
  {
    if a != [] {
      assert a[0] in b && b[0] in b;
      assert !less(a[0], a[0]);
      SortedHeads(less, a, b);
      SortedTail(less, a);
      SortedTail(less, b);
      StrictTotalPart(less, a, a[1..]);
      SortedUnique(less, a[1..], b[1..]);
      assert a == [a[0]] + a[1..] && b == [b[0]] + b[1..];
    }
  }

  /** A sorted copy has the same elements, in strictly increasing order. */
  lemma SortedCopy<T(!new)>(less: (T, T) -> bool, s: seq<T>)
    requires NoDup(s) && StrictTotalOn(less, s)
    ensures Sorted(less, SortBy(less, s)) && NoDup(SortBy(less, s))
    ensures forall x :: x in SortBy(less, s) <==> x in s
  {
    SortSorts(less, s);
    SortKeeps(less, s);
    NoDupPermuted(s, SortBy(less, s));
    forall x ensures x in SortBy(less, s) <==> x in s {
      assert x in ToSet(s) <==> x in ToSet(SortBy(less, s));
    }
  }

  /** Sorting distinct elements under a strict total order forgets the input order. */
  lemma SortForgetsOrder<T(!new)>(less: (T, T) -> bool, s: seq<T>, t: seq<T>)
    requires NoDup(s) && NoDup(t) && StrictTotalOn(less, s)
    requires forall x :: x in s <==> x in t
    ensures SortBy(less, s) == SortBy(less, t)
  {
    assert ToSet(s) == ToSet(t);
    NoDupCard(s);
    NoDupCard(t);
    StrictTotalPart(less, s, t);
    SortedCopy(less, s);
    SortedCopy(less, t);
    StrictTotalPart(less, s, SortBy(less, s));
    SortedUnique(less, SortBy(less, s), SortBy(less, t));
  }

  /** Where an element of a sorted sequence stands relative to the first two. */
  lemma SortedFront<T>(less: (T, T) -> bool, s: seq<T>, x: T)
    requires Sorted(less, s) && x in s
    ensures x == s[0] || (|s| > 1 && less(s[0], x) && (x == s[1] || less(s[1], x)))
  {
    var i :| 0 <= i < |s| && s[i] == x;
  }
}

/** Comparison of two strings character by character. Identifiers and domain names are ASCII, so
    comparing characters and comparing UTF-16 code units is the same thing. */
module TextOrder {
  import opened Sequences

  predicate TextLess(a: string, b: string) {
    if b == [] then false
    else if a == [] then true
    else a[0] < b[0] || (a[0] == b[0] && TextLess(a[1..], b[1..]))
  }

  lemma {:induction false} TextTotal(a: string, b: string)
    ensures !TextLess(a, a)
    ensures a == b || TextLess(a, b) || TextLess(b, a)
  {
    if a != [] {
      TextTotal(a[1..], if b == [] then [] else b[1..]);
      if b != [] && a[0] == b[0] && a[1..] == b[1..] {
        assert a == [a[0]] + a[1..] == b;
      }
    }
  }

  lemma {:induction false} TextTransitive(a: string, b: string, c: string)
    requires TextLess(a, b) && TextLess(b, c)
    ensures TextLess(a, c)
  {
    if a != [] && a[0] == b[0] && b[0] == c[0] {
      TextTransitive(a[1..], b[1..], c[1..]);
    }
  }

  /** A sort key: two numbers, a text and a last number, compared in that order. */
  datatype Key = Key(major: int, minor: int, text: string, last: int)

  predicate KeyLess(a: Key, b: Key) {
    || a.major < b.major
    || (a.major == b.major
        && (|| a.minor < b.minor
            || (a.minor == b.minor && (TextLess(a.text, b.text) || (a.text == b.text && a.last < b.last)))))
  }

  lemma KeyTotal(a: Key, b: Key)
    ensures !KeyLess(a, a)
    ensures a == b || KeyLess(a, b) || KeyLess(b, a)
  {
    TextTotal(a.text, b.text);
  }

  lemma KeyTransitive(a: Key, b: Key, c: Key)
    requires KeyLess(a, b) && KeyLess(b, c)
    ensures KeyLess(a, c)
  {
    if TextLess(a.text, b.text) && TextLess(b.text, c.text) {
      TextTransitive(a.text, b.text, c.text);
    }
  }

  function KeyOrder<T>(key: T -> Key): (T, T) -> bool {
    (a: T, b: T) => KeyLess(key(a), key(b))
  }

  /** Elements with different keys are strictly and totally ordered by them. */
  lemma KeyOrderTotal<T(!new)>(key: T -> Key, s: seq<T>)
    requires forall x, y :: x in s && y in s && key(x) == key(y) ==> x == y
    ensures StrictTotalOn(KeyOrder(key), s)
  {
    forall x, y | x in s && y in s
      ensures !KeyOrder(key)(x, x) && (x == y || KeyOrder(key)(x, y) || KeyOrder(key)(y, x))
    {
      KeyTotal(key(x), key(y));
    }
    forall x, y, z | x in s && y in s && z in s && KeyOrder(key)(x, y) && KeyOrder(key)(y, z)
      ensures KeyOrder(key)(x, z)
    {
      KeyTransitive(key(x), key(y), key(z));
    }
  }

  /** White space as `String.prototype.trim` removes it. */
  predicate IsSpace(c: char) {
    || '\U{0009}' <= c <= '\U{000d}' || c == ' ' || c == '\U{00a0}' || c == '\U{1680}'
    || '\U{2000}' <= c <= '\U{200a}' || c == '\U{2028}' || c == '\U{2029}' || c == '\U{202f}'
    || c == '\U{205f}' || c == '\U{3000}' || c == '\U{feff}'
  }

  predicate NonBlank(text: string) {
    exists i :: 0 <= i < |text| && !IsSpace(text[i])
  }
}
