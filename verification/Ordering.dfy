/** Results that carry a value or the reason for a refusal. */
module Outcomes {

  datatype Option<+T> = None | Some(value: T)

  datatype Result<+T, +E> = Ok(value: T) | Err(error: E) {
    predicate IsFailure() { Err? }

    function PropagateFailure<U>(): Result<U, E>
      requires Err?
    {
      Err(error)
    }

    function Extract(): T
      requires Ok?
    {
      value
    }
  }
}

/**
 What becomes of an await on a store or a service: it answers, raises, or the caller is cancelled
 or dies there; without an answer the request may or may not have been carried out.
 */
module Fates {

  datatype Fate = Replied | Lost(committed: bool) | Interrupted(committed: bool) {
    predicate Carried() {
      Replied? || committed
    }
  }
}

/**
 The order in which the scheduler, the planner and the workspace sort strings: by code point,
 a proper prefix first. Identifiers are compared through their canonical text, so an
 identifier is modelled by that text.
 */
module Ordering {

  predicate StrLt(a: string, b: string)
  {
    if b == "" then false
    else if a == "" then true
    else if a[0] != b[0] then a[0] < b[0]
    else StrLt(a[1..], b[1..])
  }

  lemma {:induction false} StrLtTotal(a: string, b: string)
    ensures a == b || StrLt(a, b) || StrLt(b, a)
    ensures !StrLt(a, a)
    ensures !(StrLt(a, b) && StrLt(b, a))
  {
    if a != "" {
      StrLtTotal(a[1..], a[1..]);
    }
    if a != "" && b != "" {
      if a[0] == b[0] {
        StrLtTotal(a[1..], b[1..]);
        assert a == [a[0]] + a[1..] && b == [b[0]] + b[1..];
      }
    }
  }

  lemma {:induction false} StrLtTransitive(a: string, b: string, c: string)
    requires StrLt(a, b) && StrLt(b, c)
    ensures StrLt(a, c)
  {
    if a != "" && b != "" && c != "" && a[0] == b[0] == c[0] {
      StrLtTransitive(a[1..], b[1..], c[1..]);
    }
  }

  /** The texts agree up to `k`, where the first has the smaller character. */
  predicate FirstDiffersAt(a: string, b: string, k: nat) {
    k < |a| && k < |b| && a[..k] == b[..k] && a[k] < b[k]
  }

  /** A proper prefix comes first; otherwise the smaller character at the first difference decides. */
  ghost predicate Precedes(a: string, b: string) {
    a < b || exists k: nat :: FirstDiffersAt(a, b, k)
  }

  /** The order is the lexicographic one, upwards by code point. */
  lemma {:induction false} StrLtExactly(a: string, b: string)
    ensures StrLt(a, b) <==> Precedes(a, b)
  {
    if a != "" && b != "" && a[0] == b[0] {
      StrLtExactly(a[1..], b[1..]);
      SameHead(a, b);
    } else if a != "" && b != "" {
      assert FirstDiffersAt(a, b, 0) <==> a[0] < b[0];
      forall k: nat | FirstDiffersAt(a, b, k) ensures k == 0 {
        HeadsAgree(a, b, k);
      }
    }
  }

  lemma HeadsAgree(a: string, b: string, k: nat)
    requires FirstDiffersAt(a, b, k)
    ensures k > 0 ==> a[0] == b[0]
  {
    assert k > 0 ==> a[..k][0] == b[..k][0];
  }

  lemma SameHead(a: string, b: string)
    requires a != "" && b != "" && a[0] == b[0]
    ensures Precedes(a, b) <==> Precedes(a[1..], b[1..])
  {
    assert a == [a[0]] + a[1..] && b == [b[0]] + b[1..];
    if k: nat :| FirstDiffersAt(a, b, k) {
      assert a[1..][..k - 1] == a[..k][1..] && b[1..][..k - 1] == b[..k][1..];
      assert FirstDiffersAt(a[1..], b[1..], k - 1);
    }
    if k: nat :| FirstDiffersAt(a[1..], b[1..], k) {
      assert a[..k + 1] == [a[0]] + a[1..][..k] && b[..k + 1] == [b[0]] + b[1..][..k];
      assert FirstDiffersAt(a, b, k + 1);
    }
  }

  function Elements<T>(xs: seq<T>): set<T> {
    set x | x in xs
  }

  ghost predicate Distinct<T>(xs: seq<T>)
  {
    forall i, j :: 0 <= i < j < |xs| ==> xs[i] != xs[j]
  }

  ghost predicate StrictlySorted(xs: seq<string>)
  {
    forall i, j :: 0 <= i < j < |xs| ==> StrLt(xs[i], xs[j])
  }

  lemma InPrefix<T>(xs: seq<T>, n: nat, i: nat)
    requires n <= |xs| && i < |xs|
    ensures i < n ==> xs[i] in xs[..n]
  {
    assert i < n ==> xs[..n][i] == xs[i];
  }

  lemma StrictlySortedIsDistinct(xs: seq<string>)
    requires StrictlySorted(xs)
    ensures Distinct(xs)
  {
    forall i, j | 0 <= i < j < |xs| ensures xs[i] != xs[j] {
      StrLtTotal(xs[i], xs[j]);
    }
  }

  lemma {:induction false} DistinctCardinality<T>(xs: seq<T>)
    requires Distinct(xs)
    ensures |Elements(xs)| == |xs|
  {
    if |xs| > 0 {
      var rest := xs[..|xs| - 1];
      DistinctCardinality(rest);
      assert Elements(xs) == Elements(rest) + {xs[|xs| - 1]};
    }
  }

  /** A list that repeats an element has fewer distinct elements than entries. */
  lemma {:induction false} ElementsBound<T>(xs: seq<T>)
    ensures |Elements(xs)| <= |xs|
    ensures |Elements(xs)| == |xs| ==> Distinct(xs)
  {
    if |xs| > 0 {
      var rest, last := xs[..|xs| - 1], xs[|xs| - 1];
      ElementsBound(rest);
      assert xs == rest + [last];
      assert Elements(xs) == Elements(rest) + {last};
      if last in rest {
        assert Elements(xs) == Elements(rest);
      }
    }
  }

  lemma EmptyElements<T>(xs: seq<T>)
    ensures xs == [] <==> Elements(xs) == {}
  {
    if xs != [] {
      assert xs[0] in Elements(xs);
    }
  }

  lemma ElementsAppend<T>(xs: seq<T>, ys: seq<T>)
    ensures Elements(xs + ys) == Elements(xs) + Elements(ys)
  {
  }

  /** Two strictly sorted lists with the same elements are the same list. */
  lemma {:induction false} SortedUnique(xs: seq<string>, ys: seq<string>)
    requires StrictlySorted(xs) && StrictlySorted(ys)
    requires Elements(xs) == Elements(ys)
    ensures xs == ys
  {
    if xs == [] || ys == [] {
      EmptyElements(xs);
      EmptyElements(ys);
    } else {
      assert xs[0] in Elements(ys) && ys[0] in Elements(xs);
      StrLtTotal(xs[0], ys[0]);
      HeadIsLeast(xs, ys[0]);
      HeadIsLeast(ys, xs[0]);
      StrictlySortedIsDistinct(xs);
      StrictlySortedIsDistinct(ys);
      assert Elements(xs[1..]) == Elements(xs) - {xs[0]};
      assert Elements(ys[1..]) == Elements(ys) - {ys[0]};
      SortedUnique(xs[1..], ys[1..]);
      assert xs == [xs[0]] + xs[1..] && ys == [ys[0]] + ys[1..];
    }
  }

  lemma HeadIsLeast(xs: seq<string>, x: string)
    requires StrictlySorted(xs) && x in xs
    ensures x == xs[0] || StrLt(xs[0], x)
  {
    var i :| 0 <= i < |xs| && xs[i] == x;
  }

  predicate IsLeast(m: string, s: set<string>)
  {
    m in s && forall x :: x in s && x != m ==> StrLt(m, x)
  }

  lemma {:induction false} LeastExists(s: set<string>)
    requires s != {}
    ensures exists m :: IsLeast(m, s)
  {
    var m :| m in s;
    if s == {m} {
      assert IsLeast(m, s);
    } else {
      LeastExists(s - {m});
      var n :| IsLeast(n, s - {m});
      StrLtTotal(m, n);
      if StrLt(m, n) {
        forall x | x in s && x != m ensures StrLt(m, x) {
          if x != n { StrLtTransitive(m, n, x); }
        }
        assert IsLeast(m, s);
      } else {
        assert IsLeast(n, s);
      }
    }
  }

  lemma LeastUnique(a: string, b: string, s: set<string>)
    requires IsLeast(a, s) && IsLeast(b, s)
    ensures a == b
  {
    StrLtTotal(a, b);
  }

  function Least(s: set<string>): (m: string)
    requires s != {}
    ensures IsLeast(m, s)
  {
    LeastExists(s);
    assert forall a, b :: IsLeast(a, s) && IsLeast(b, s) ==> a == b by {
      forall a, b | IsLeast(a, s) && IsLeast(b, s) ensures a == b {
        LeastUnique(a, b, s);
      }
    }
    var m :| m in s && IsLeast(m, s);
    m
  }

  lemma ConsSorted(m: string, rest: seq<string>)
    requires StrictlySorted(rest)
    requires forall x :: x in Elements(rest) ==> StrLt(m, x)
    ensures StrictlySorted([m] + rest)
    ensures Elements([m] + rest) == {m} + Elements(rest)
  {
    forall j | 0 <= j < |rest| ensures StrLt(m, rest[j]) {
      assert rest[j] in Elements(rest);
    }
  }

  /** `sorted(...)` of a set. */
  function SortSet(s: set<string>): seq<string> {
    if s == {} then [] else [Least(s)] + SortSet(s - {Least(s)})
  }

  /** Sorting a set lists its elements in increasing order, each once. */
  lemma {:induction false} SortSetFacts(s: set<string>)
    ensures StrictlySorted(SortSet(s))
    ensures Elements(SortSet(s)) == s
    ensures |SortSet(s)| == |s|
  {
    if s != {} {
      SortSetFacts(s - {Least(s)});
      ConsSorted(Least(s), SortSet(s - {Least(s)}));
    }
  }

  function Insert(x: string, xs: seq<string>): (r: seq<string>)
    ensures multiset(r) == multiset(xs) + multiset{x}
  {
    if xs == [] || x == xs[0] || StrLt(x, xs[0]) then [x] + xs
    else
      assert xs == [xs[0]] + xs[1..];
      [xs[0]] + Insert(x, xs[1..])
  }

  /** `list.sort()` and `sorted(...)` of a list, by insertion. */
  function Sort(xs: seq<string>): (r: seq<string>)
    ensures multiset(r) == multiset(xs)
  {
    if xs == [] then []
    else
      assert xs == [xs[0]] + xs[1..];
      Insert(xs[0], Sort(xs[1..]))
  }

  lemma HeadIsBelow(xs: seq<string>, y: string)
    requires xs != [] && StrictlySorted(xs) && y in Elements(xs[1..])
    ensures StrLt(xs[0], y)
  {
    var k :| 0 <= k < |xs[1..]| && xs[1..][k] == y;
    assert xs[k + 1] == y;
  }

  lemma {:induction false} InsertSorted(x: string, xs: seq<string>)
    requires StrictlySorted(xs) && x !in xs
    ensures StrictlySorted(Insert(x, xs))
    ensures Elements(Insert(x, xs)) == Elements(xs) + {x}
  {
    if xs == [] {
    } else if StrLt(x, xs[0]) {
      forall y | y in Elements(xs) ensures StrLt(x, y) {
        HeadIsLeast(xs, y);
        if y != xs[0] { StrLtTransitive(x, xs[0], y); }
      }
      ConsSorted(x, xs);
    } else {
      StrLtTotal(x, xs[0]);
      var tail := xs[1..];
      InsertSorted(x, tail);
      forall y | y in Elements(Insert(x, tail)) ensures StrLt(xs[0], y) {
        if y != x {
          HeadIsBelow(xs, y);
        }
      }
      ConsSorted(xs[0], Insert(x, tail));
      assert xs == [xs[0]] + tail;
    }
  }

  /** Sorting a list without repetitions gives the sorted listing of its set of elements. */
  lemma {:induction false} SortIsSortSet(xs: seq<string>)
    requires Distinct(xs)
    ensures Sort(xs) == SortSet(Elements(xs))
  {
    SortDistinct(xs);
    SortSetFacts(Elements(xs));
    SortedUnique(Sort(xs), SortSet(Elements(xs)));
  }

  lemma {:induction false} SortDistinct(xs: seq<string>)
    requires Distinct(xs)
    ensures StrictlySorted(Sort(xs)) && Elements(Sort(xs)) == Elements(xs)
  {
    if xs != [] {
      SortDistinct(xs[1..]);
      assert xs[0] !in xs[1..];
      assert xs[0] !in Elements(Sort(xs[1..]));
      InsertSorted(xs[0], Sort(xs[1..]));
      assert Elements(xs) == Elements(xs[1..]) + {xs[0]};
    }
  }
}
