/** A stable sort, as the platform's sort of a list by a comparison. */
module Sorting {

  ghost predicate TotalPreorder<T(!new)>(le: (T, T) -> bool)
  {
    (forall a, b :: le(a, b) || le(b, a)) &&
    (forall a, b, c :: le(a, b) && le(b, c) ==> le(a, c))
  }

  ghost predicate Sorted<T>(le: (T, T) -> bool, xs: seq<T>)
  {
    forall i, j :: 0 <= i < j < |xs| ==> le(xs[i], xs[j])
  }

  /** Put `x` after every element it does not precede. */
  function Insert<T>(le: (T, T) -> bool, ys: seq<T>, x: T): seq<T>
  {
    if |ys| == 0 then [x]
    else if le(ys[|ys| - 1], x) then ys + [x]
    else Insert(le, ys[..|ys| - 1], x) + [ys[|ys| - 1]]
  }

  function Sort<T>(le: (T, T) -> bool, xs: seq<T>): seq<T>
  {
    if |xs| == 0 then [] else Insert(le, Sort(le, xs[..|xs| - 1]), xs[|xs| - 1])
  }

  lemma {:induction false} InsertPermutes<T>(le: (T, T) -> bool, ys: seq<T>, x: T)
    ensures multiset(Insert(le, ys, x)) == multiset(ys) + multiset{x}
    ensures |Insert(le, ys, x)| == |ys| + 1
  {
    if |ys| > 0 && !le(ys[|ys| - 1], x) {
      InsertPermutes(le, ys[..|ys| - 1], x);
      assert ys == ys[..|ys| - 1] + [ys[|ys| - 1]];
    }
  }

  lemma SortOn<T>(le: (T, T) -> bool, init: seq<T>, last: T)
    ensures Sort(le, init + [last]) == Insert(le, Sort(le, init), last)
  {
    assert (init + [last])[..|init|] == init;
  }

  lemma {:induction false} SortPermutes<T>(le: (T, T) -> bool, xs: seq<T>)
    ensures multiset(Sort(le, xs)) == multiset(xs)
    ensures |Sort(le, xs)| == |xs|
  {
    if |xs| > 0 {
      var init, last := xs[..|xs| - 1], xs[|xs| - 1];
      SortPermutes(le, init);
      assert xs == init + [last];
      SortOn(le, init, last);
      InsertPermutes(le, Sort(le, init), last);
    }
  }

  lemma {:induction false} InsertSorted<T(!new)>(le: (T, T) -> bool, ys: seq<T>, x: T)
    requires TotalPreorder(le) && Sorted(le, ys)
    ensures Sorted(le, Insert(le, ys, x))
  {
    if |ys| > 0 {
      var last, rest := ys[|ys| - 1], ys[..|ys| - 1];
      if !le(last, x) {
        InsertSorted(le, rest, x);
        InsertPermutes(le, rest, x);
        var zs := Insert(le, rest, x);
        forall i | 0 <= i < |zs| ensures le(zs[i], last) {
          assert zs[i] in multiset(zs);
          if zs[i] != x {
            assert zs[i] in multiset(rest);
          }
        }
      }
    }
  }

  lemma {:induction false} SortSorted<T(!new)>(le: (T, T) -> bool, xs: seq<T>)
    requires TotalPreorder(le)
    ensures Sorted(le, Sort(le, xs))
  {
    if |xs| > 0 {
      SortSorted(le, xs[..|xs| - 1]);
      InsertSorted(le, Sort(le, xs[..|xs| - 1]), xs[|xs| - 1]);
    }
  }

  /** No two different elements tie. */
  ghost predicate NoTies<T>(le: (T, T) -> bool, xs: seq<T>)
  {
    forall a, b :: a in multiset(xs) && b in multiset(xs) && le(a, b) && le(b, a) ==> a == b
  }

  /** Without ties, an order determines the sorted sequence. */
  lemma {:induction false} SortedUnique<T(!new)>(le: (T, T) -> bool, xs: seq<T>, ys: seq<T>)
    requires Sorted(le, xs) && Sorted(le, ys) && multiset(xs) == multiset(ys) && NoTies(le, xs)
    ensures xs == ys
  {
    assert |xs| == |multiset(xs)| && |ys| == |multiset(ys)|;
    if |xs| > 0 {
      SameLast(le, xs, ys);
      DropLast(xs);
      DropLast(ys);
      NoTiesBefore(le, xs);
      SortedUnique(le, xs[..|xs| - 1], ys[..|ys| - 1]);
    }
  }

  lemma DropLast<T>(xs: seq<T>)
    requires |xs| > 0
    ensures multiset(xs[..|xs| - 1]) == multiset(xs) - multiset{xs[|xs| - 1]}
    ensures xs == xs[..|xs| - 1] + [xs[|xs| - 1]]
  {
    assert xs == xs[..|xs| - 1] + [xs[|xs| - 1]];
  }

  lemma NoTiesBefore<T>(le: (T, T) -> bool, xs: seq<T>)
    requires |xs| > 0 && NoTies(le, xs)
    ensures NoTies(le, xs[..|xs| - 1])
  {
    DropLast(xs);
    assert forall a :: a in multiset(xs[..|xs| - 1]) ==> a in multiset(xs);
  }

  lemma SameLast<T>(le: (T, T) -> bool, xs: seq<T>, ys: seq<T>)
    requires |xs| > 0 && |ys| > 0 && Sorted(le, xs) && Sorted(le, ys) && multiset(xs) == multiset(ys) && NoTies(le, xs)
    ensures xs[|xs| - 1] == ys[|ys| - 1]
  {
    var x, y := xs[|xs| - 1], ys[|ys| - 1];
    assert x in multiset(xs) && y in multiset(ys);
    LastIsGreatest(le, xs, y);
    LastIsGreatest(le, ys, x);
  }

  lemma LastIsGreatest<T>(le: (T, T) -> bool, xs: seq<T>, x: T)
    requires Sorted(le, xs) && x in multiset(xs)
    ensures |xs| > 0 && (x == xs[|xs| - 1] || le(x, xs[|xs| - 1]))
  {
    var i :| 0 <= i < |xs| && xs[i] == x;
  }

  /** So sorting forgets the order its input came in. */
  lemma SortForgetsOrder<T(!new)>(le: (T, T) -> bool, xs: seq<T>, ys: seq<T>)
    requires TotalPreorder(le) && multiset(xs) == multiset(ys) && NoTies(le, xs)
    ensures Sort(le, xs) == Sort(le, ys)
  {
    SortPermutes(le, xs);
    SortPermutes(le, ys);
    SortSorted(le, xs);
    SortSorted(le, ys);
    SortedUnique(le, Sort(le, xs), Sort(le, ys));
  }

  /** Sorting sequences related element by element keeps them related, when the orders agree. */
  lemma {:induction false} SortRelated<A(!new), B(!new)>(
      le: (A, A) -> bool, le': (B, B) -> bool, rel: (A, B) -> bool, xs: seq<A>, ys: seq<B>)
    requires forall a, b, c, d :: rel(a, b) && rel(c, d) ==> le(a, c) == le'(b, d)
    requires |xs| == |ys| && forall i :: 0 <= i < |xs| ==> rel(xs[i], ys[i])
    ensures |Sort(le, xs)| == |Sort(le', ys)|
    ensures forall i :: 0 <= i < |Sort(le, xs)| ==> rel(Sort(le, xs)[i], Sort(le', ys)[i])
  {
    if |xs| > 0 {
      SortRelated(le, le', rel, xs[..|xs| - 1], ys[..|ys| - 1]);
      InsertRelated(le, le', rel, Sort(le, xs[..|xs| - 1]), Sort(le', ys[..|ys| - 1]), xs[|xs| - 1], ys[|ys| - 1]);
    }
  }

  lemma {:induction false} InsertRelated<A(!new), B(!new)>(
      le: (A, A) -> bool, le': (B, B) -> bool, rel: (A, B) -> bool, xs: seq<A>, ys: seq<B>, x: A, y: B)
    requires forall a, b, c, d :: rel(a, b) && rel(c, d) ==> le(a, c) == le'(b, d)
    requires |xs| == |ys| && (forall i :: 0 <= i < |xs| ==> rel(xs[i], ys[i])) && rel(x, y)
    ensures |Insert(le, xs, x)| == |Insert(le', ys, y)|
    ensures forall i :: 0 <= i < |Insert(le, xs, x)| ==> rel(Insert(le, xs, x)[i], Insert(le', ys, y)[i])
  {
    if |xs| > 0 {
      assert rel(xs[|xs| - 1], ys[|ys| - 1]);
      if !le(xs[|xs| - 1], x) {
        InsertRelated(le, le', rel, xs[..|xs| - 1], ys[..|ys| - 1], x, y);
      }
    }
  }

  /** A sorted sequence is its own sort. */
  lemma {:induction false} SortOfSorted<T>(le: (T, T) -> bool, xs: seq<T>)
    requires Sorted(le, xs)
    ensures Sort(le, xs) == xs
  {
    if |xs| > 0 {
      SortOfSorted(le, xs[..|xs| - 1]);
      assert xs == xs[..|xs| - 1] + [xs[|xs| - 1]];
    }
  }

  // ---- Stability ------------------------------------------------------------------------------------

  predicate Ties<T>(le: (T, T) -> bool, a: T, b: T)
  {
    le(a, b) && le(b, a)
  }

  /** The elements that tie with another, in order. */
  function Tied<T>(le: (T, T) -> bool, xs: seq<T>, e: T): seq<T>
  {
    if |xs| == 0 then []
    else Tied(le, xs[..|xs| - 1], e) + if Ties(le, xs[|xs| - 1], e) then [xs[|xs| - 1]] else []
  }

  lemma TiedOn<T>(le: (T, T) -> bool, xs: seq<T>, x: T, e: T)
    ensures Tied(le, xs + [x], e) == Tied(le, xs, e) + if Ties(le, x, e) then [x] else []
  {
    assert (xs + [x])[..|xs|] == xs;
  }

  lemma {:induction false} InsertTied<T(!new)>(le: (T, T) -> bool, ys: seq<T>, x: T, e: T)
    requires TotalPreorder(le)
    ensures Tied(le, Insert(le, ys, x), e) == Tied(le, ys, e) + if Ties(le, x, e) then [x] else []
  {
    if |ys| > 0 && !le(ys[|ys| - 1], x) {
      var rest, last := ys[..|ys| - 1], ys[|ys| - 1];
      InsertTied(le, rest, x, e);
      TiedOn(le, Insert(le, rest, x), last, e);
      if Ties(le, x, e) {
        assert Ties(le, last, e) ==> le(last, x);
      }
    } else {
      TiedOn(le, ys, x, e);
    }
  }

  /** Elements that tie keep the order they came in. */
  lemma {:induction false} SortStable<T(!new)>(le: (T, T) -> bool, xs: seq<T>, e: T)
    requires TotalPreorder(le)
    ensures Tied(le, Sort(le, xs), e) == Tied(le, xs, e)
  {
    if |xs| > 0 {
      SortStable(le, xs[..|xs| - 1], e);
      InsertTied(le, Sort(le, xs[..|xs| - 1]), xs[|xs| - 1], e);
    }
  }
}
