/**
 * The two list operations the dealership code applies to `java.util.List`s of
 * cars: `List.remove(Object)`, which drops the FIRST element equal to its
 * argument (for cars, the same reference), and the stream filter that keeps
 * the elements not contained in another list.
 */
module Lists {

  /** No element occurs twice (for objects: no reference occurs twice). */
  predicate Distinct<T(==)>(s: seq<T>)
  {
    forall i, j :: 0 <= i < j < |s| ==> s[i] != s[j]
  }

  /** `s` with the elements that occur in `excluded` filtered out, in the order of `s`. */
  function Without<T(==)>(s: seq<T>, excluded: seq<T>): (r: seq<T>)
    ensures |r| <= |s|
  {
    if s == [] then []
    else (if s[0] in excluded then [] else [s[0]]) + Without(s[1..], excluded)
  }

  /** What the filter keeps: exactly the elements of `s` that are not in `excluded`. */
  lemma {:induction false} WithoutMember<T>(s: seq<T>, excluded: seq<T>, x: T)
    ensures x in Without(s, excluded) <==> x in s && x !in excluded
  {
    if s != [] {
      WithoutMember(s[1..], excluded, x);
      assert s == [s[0]] + s[1..];
    }
  }

  /** A filter that excludes none of the elements keeps the list as it is. */
  lemma {:induction false} WithoutNoneExcluded<T>(s: seq<T>, excluded: seq<T>)
    requires forall i :: 0 <= i < |s| ==> s[i] !in excluded
    ensures Without(s, excluded) == s
  {
    if s != [] {
      WithoutNoneExcluded(s[1..], excluded);
      assert s == [s[0]] + s[1..];
    }
  }

  /** `List.remove(Object)`: the first occurrence of `x` is dropped; a list without `x` is unchanged. */
  function RemoveFirst<T(==)>(s: seq<T>, x: T): (r: seq<T>)
    ensures x !in s ==> r == s
    ensures x in s ==> |r| == |s| - 1
  {
    if s == [] then []
    else
      assert s == [s[0]] + s[1..];
      if s[0] == x then s[1..] else [s[0]] + RemoveFirst(s[1..], x)
  }

  /** `remove(x)` takes away one occurrence of `x`, if there is one, and keeps every other element. */
  lemma {:induction false} RemoveFirstMultiset<T>(s: seq<T>, x: T)
    ensures multiset(RemoveFirst(s, x)) == multiset(s) - multiset{x}
  {
    if s != [] {
      assert s == [s[0]] + s[1..];
      assert multiset(s) == multiset{s[0]} + multiset(s[1..]);
      if s[0] != x {
        RemoveFirstMultiset(s[1..], x);
        calc {
          multiset(RemoveFirst(s, x));
          multiset([s[0]] + RemoveFirst(s[1..], x));
          multiset{s[0]} + (multiset(s[1..]) - multiset{x});
          multiset(s) - multiset{x};
        }
      }
    }
  }

  /**
   * `remove(x)` drops the FIRST occurrence of `x`: when `i` is the first index
   * holding `x`, the result is `s` without position `i`, the rest in order.
   */
  lemma {:induction false} RemoveFirstAt<T>(s: seq<T>, x: T, i: int)
    requires 0 <= i < |s| && s[i] == x && x !in s[..i]
    ensures RemoveFirst(s, x) == s[..i] + s[i + 1..]
  {
    if i > 0 {
      assert s[0] in s[..i];
      var t := s[1..];
      assert t[..i - 1] == s[1..i];
      RemoveFirstAt(t, x, i - 1);
      assert t[i..] == s[i + 1..];
      assert s[..i] == [s[0]] + s[1..i];
    }
  }

  /** `List.remove(Object)` called once for each element of `xs`, in the order of `xs`. */
  function RemoveEach<T(==)>(s: seq<T>, xs: seq<T>): seq<T>
  {
    if xs == [] then s else RemoveFirst(RemoveEach(s, xs[..|xs| - 1]), xs[|xs| - 1])
  }

  lemma {:induction false} WithoutConcat<T>(a: seq<T>, b: seq<T>, excluded: seq<T>)
    ensures Without(a + b, excluded) == Without(a, excluded) + Without(b, excluded)
  {
    if a == [] {
      assert a + b == b;
    } else {
      assert (a + b)[1..] == a[1..] + b;
      WithoutConcat(a[1..], b, excluded);
    }
  }

  /** Removing an element that is itself filtered out does not change what the filter keeps. */
  lemma {:induction false} WithoutRemoveFirst<T>(s: seq<T>, x: T, excluded: seq<T>)
    requires x in excluded
    ensures Without(RemoveFirst(s, x), excluded) == Without(s, excluded)
  {
    if s != [] && s[0] != x {
      WithoutRemoveFirst(s[1..], x, excluded);
      WithoutConcat([s[0]], s[1..], excluded);
      WithoutConcat([s[0]], RemoveFirst(s[1..], x), excluded);
      assert [s[0]] + s[1..] == s;
    }
  }

  /**
   * Elements outside `xs` survive `RemoveEach(s, xs)` with their multiplicity and
   * relative order, whatever duplicates `s` or `xs` hold.
   */
  lemma {:induction false} RemoveEachKeepsOthers<T>(s: seq<T>, xs: seq<T>, excluded: seq<T>)
    requires forall x :: x in xs ==> x in excluded
    ensures Without(RemoveEach(s, xs), excluded) == Without(s, excluded)
  {
    if xs != [] {
      var init, last := xs[..|xs| - 1], xs[|xs| - 1];
      assert last in xs;
      assert forall x :: x in init ==> x in xs;
      RemoveEachKeepsOthers(s, init, excluded);
      WithoutRemoveFirst(RemoveEach(s, init), last, excluded);
    }
  }

  lemma {:induction false} WithoutDistinct<T>(s: seq<T>, excluded: seq<T>)
    requires Distinct(s)
    ensures Distinct(Without(s, excluded))
  {
    if s != [] {
      WithoutDistinct(s[1..], excluded);
      assert s[0] !in s[1..];
      WithoutMember(s[1..], excluded, s[0]);
    }
  }

  /** On a list without duplicates, `remove(x)` is the filter that drops `x`. */
  lemma {:induction false} RemoveFirstDistinct<T>(s: seq<T>, x: T)
    requires Distinct(s)
    ensures RemoveFirst(s, x) == Without(s, [x])
  {
    if s != [] {
      if s[0] == x {
        assert x !in s[1..];
        WithoutNoneExcluded(s[1..], [x]);
      } else {
        RemoveFirstDistinct(s[1..], x);
      }
    }
  }

  lemma {:induction false} WithoutWithout<T>(s: seq<T>, a: seq<T>, b: seq<T>)
    ensures Without(Without(s, a), b) == Without(s, a + b)
  {
    if s != [] {
      var x, rest := s[0], s[1..];
      WithoutWithout(rest, a, b);
      assert x in a + b <==> x in a || x in b;
      if x in a {
        assert Without(s, a) == Without(rest, a);
      } else {
        assert Without(s, a) == [x] + Without(rest, a);
        WithoutConcat([x], Without(rest, a), b);
        assert Without([x], b) == (if x in b then [] else [x]) by {
          assert [x][1..] == [];
        }
      }
    }
  }

  /**
   * On a list without duplicates, removing every element of `xs` one by one
   * leaves exactly the elements outside `xs`, in their original order.
   */
  lemma {:induction false} RemoveEachDistinct<T>(s: seq<T>, xs: seq<T>)
    requires Distinct(s)
    ensures RemoveEach(s, xs) == Without(s, xs)
  {
    if xs != [] {
      var init, last := xs[..|xs| - 1], xs[|xs| - 1];
      assert xs == init + [last];
      RemoveEachDistinct(s, init);
      WithoutDistinct(s, init);
      calc {
        RemoveEach(s, xs);
        RemoveFirst(RemoveEach(s, init), last);
        RemoveFirst(Without(s, init), last);
        { RemoveFirstDistinct(Without(s, init), last); }
        Without(Without(s, init), [last]);
        { WithoutWithout(s, init, [last]); }
        Without(s, xs);
      }
    } else {
      WithoutNoneExcluded(s, xs);
    }
  }

  /**
   * On a list without duplicates, removing each element of `xs` leaves none of
   * them behind and keeps every other element.
   */
  lemma RemoveEachMembers<T>(s: seq<T>, xs: seq<T>, x: T)
    requires Distinct(s)
    ensures x in RemoveEach(s, xs) <==> x in s && x !in xs
  {
    RemoveEachDistinct(s, xs);
    WithoutMember(s, xs, x);
  }

  /** Appending an element that is not yet there keeps a list free of duplicates. */
  lemma DistinctAppend<T>(s: seq<T>, x: T)
    requires Distinct(s) && x !in s
    ensures Distinct(s + [x])
  {
  }

  /** After `remove(x)` on a list without duplicates, `x` is gone and nothing is duplicated. */
  lemma RemoveFirstKeepsDistinct<T>(s: seq<T>, x: T)
    requires Distinct(s)
    ensures Distinct(RemoveFirst(s, x)) && x !in RemoveFirst(s, x)
  {
    RemoveFirstDistinct(s, x);
    WithoutDistinct(s, [x]);
  }
}
