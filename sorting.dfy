/** The two orders of the "Sort" button and the stable sort `List.sort`
    applies with them. */
module Sorting {
  import opened Text
  import opened Expenses

  /** The sort keys the sort combobox offers: "Category" and "Amount". */
  datatype SortKey = ByCategory | ByAmount

  /** The comparator of the sort button read as `compare(a, b) <= 0`:
      `compareToIgnoreCase` on categories, or `Double.compare` on amounts. */
  predicate Le(k: SortKey, a: Expense, b: Expense)
  {
    match k
    case ByCategory => LexLe(Lower(a.category), Lower(b.category))
    case ByAmount => a.amount <= b.amount
  }

  /** The comparator returns 0: the two expenses have equal keys. */
  predicate SameKey(k: SortKey, a: Expense, b: Expense)
  {
    match k
    case ByCategory => Lower(a.category) == Lower(b.category)
    case ByAmount => a.amount == b.amount
  }

  /** The expenses whose key equals the key of `e0`. */
  function KeyClass(k: SortKey, e0: Expense): Expense -> bool
  {
    (e: Expense) => SameKey(k, e, e0)
  }

  lemma LeTotal(k: SortKey, a: Expense, b: Expense)
    ensures Le(k, a, b) || Le(k, b, a)
  {
    if k == ByCategory {
      LexLeTotal(Lower(a.category), Lower(b.category));
    }
  }

  lemma LeTransitive(k: SortKey, a: Expense, b: Expense, c: Expense)
    requires Le(k, a, b) && Le(k, b, c)
    ensures Le(k, a, c)
  {
    if k == ByCategory {
      LexLeTransitive(Lower(a.category), Lower(b.category), Lower(c.category));
    }
  }

  /** Equal keys are exactly the pairs the comparator orders both ways. */
  lemma SameKeyIff(k: SortKey, a: Expense, b: Expense)
    ensures SameKey(k, a, b) <==> Le(k, a, b) && Le(k, b, a)
  {
    if k == ByCategory {
      LexLeReflexive(Lower(a.category));
      if Le(k, a, b) && Le(k, b, a) {
        LexLeAntisymmetric(Lower(a.category), Lower(b.category));
      }
    }
  }

  /** `s` is in non-decreasing order of key `k`. */
  predicate Sorted(k: SortKey, s: seq<Expense>)
  {
    forall i, j :: 0 <= i < j < |s| ==> Le(k, s[i], s[j])
  }

  /** `r` keeps the expenses of every key in the order `s` has them. */
  ghost predicate Stable(k: SortKey, r: seq<Expense>, s: seq<Expense>)
  {
    forall e0 :: Select(r, KeyClass(k, e0)) == Select(s, KeyClass(k, e0))
  }

  /** Puts `x` in front of the first element it does not come after. */
  function Insert(k: SortKey, x: Expense, s: seq<Expense>): (r: seq<Expense>)
    ensures multiset(r) == multiset(s) + multiset{x}
  {
    if s == [] then [x]
    else if Le(k, x, s[0]) then [x] + s
    else
      assert s == [s[0]] + s[1..];
      [s[0]] + Insert(k, x, s[1..])
  }

  /** The stable sort by key `k`: each element, taken from the back, is
      inserted in front of every element of an equal key. */
  function SortBy(k: SortKey, s: seq<Expense>): (r: seq<Expense>)
    ensures multiset(r) == multiset(s)
  {
    if s == [] then []
    else
      assert s == [s[0]] + s[1..];
      Insert(k, s[0], SortBy(k, s[1..]))
  }

  lemma {:induction false} InsertSorted(k: SortKey, x: Expense, s: seq<Expense>)
    requires Sorted(k, s)
    ensures Sorted(k, Insert(k, x, s))
  {
    if s == [] {
    } else if Le(k, x, s[0]) {
      forall j | 0 <= j < |s|
        ensures Le(k, x, s[j])
      {
        if j > 0 {
          LeTransitive(k, x, s[0], s[j]);
        }
      }
    } else {
      LeTotal(k, x, s[0]);
      InsertSorted(k, x, s[1..]);
      var t := Insert(k, x, s[1..]);
      forall j | 0 <= j < |t|
        ensures Le(k, s[0], t[j])
      {
        assert t[j] in multiset(t);
        assert t[j] == x || t[j] in s[1..];
      }
    }
  }

  /** The sort leaves the list in non-decreasing order of its key. */
  lemma {:induction false} SortBySorted(k: SortKey, s: seq<Expense>)
    ensures Sorted(k, SortBy(k, s))
  {
    if s != [] {
      SortBySorted(k, s[1..]);
      InsertSorted(k, s[0], SortBy(k, s[1..]));
    }
  }

  /** Two neighbours of different keys can swap places without changing what
      any one key selects. */
  lemma SwapSelect(k: SortKey, x: Expense, y: Expense, rest: seq<Expense>, t: seq<Expense>, e0: Expense)
    requires !(SameKey(k, x, e0) && SameKey(k, y, e0))
    requires Select(t, KeyClass(k, e0)) == Select([x] + rest, KeyClass(k, e0))
    ensures Select([y] + t, KeyClass(k, e0)) == Select([x] + ([y] + rest), KeyClass(k, e0))
  {
    var q := KeyClass(k, e0);
    SelectCons(y, t, q);
    SelectCons(x, rest, q);
    SelectCons(x, [y] + rest, q);
    SelectCons(y, rest, q);
  }

  /** Inserting `x` places it after no element of its own key. */
  lemma {:induction false} InsertSelect(k: SortKey, x: Expense, s: seq<Expense>, e0: Expense)
    ensures Select(Insert(k, x, s), KeyClass(k, e0)) == Select([x] + s, KeyClass(k, e0))
  {
    if s != [] && !Le(k, x, s[0]) {
      var y, rest := s[0], s[1..];
      assert s == [y] + rest;
      InsertSelect(k, x, rest, e0);
      if SameKey(k, x, e0) && SameKey(k, y, e0) {
        SameKeyIff(k, x, y);
      }
      SwapSelect(k, x, y, rest, Insert(k, x, rest), e0);
    }
  }

  /** The sort is stable: the expenses of each key keep their relative order. */
  lemma {:induction false} SortByStable(k: SortKey, s: seq<Expense>)
    ensures Stable(k, SortBy(k, s), s)
  {
    if s != [] {
      SortByStable(k, s[1..]);
      forall e0
        ensures Select(SortBy(k, s), KeyClass(k, e0)) == Select(s, KeyClass(k, e0))
      {
        var q := KeyClass(k, e0);
        InsertSelect(k, s[0], SortBy(k, s[1..]), e0);
        SelectCons(s[0], SortBy(k, s[1..]), q);
        SelectCons(s[0], s[1..], q);
        assert s == [s[0]] + s[1..];
      }
    }
  }

  /** Lists that agree on the order within every key hold the same elements. */
  lemma StablePermutation(k: SortKey, r: seq<Expense>, t: seq<Expense>)
    requires Stable(k, r, t)
    ensures multiset(r) == multiset(t)
  {
    forall x
      ensures multiset(r)[x] == multiset(t)[x]
    {
      SelectCount(r, KeyClass(k, x));
      SelectCount(t, KeyClass(k, x));
      SameKeyIff(k, x, x);
      LeTotal(k, x, x);
      assert Select(r, KeyClass(k, x)) == Select(t, KeyClass(k, x));
    }
  }

  /** The first elements of two sorted arrangements of the same elements have
      equal keys. */
  lemma SortedHeadsSameKey(k: SortKey, r: seq<Expense>, t: seq<Expense>)
    requires Sorted(k, r) && Sorted(k, t)
    requires multiset(r) == multiset(t) && r != []
    ensures t != [] && SameKey(k, r[0], t[0])
  {
    assert |t| == |multiset(t)| == |multiset(r)| == |r|;
    var a, b := r[0], t[0];
    assert b in multiset(r) && a in multiset(t);
    LeTotal(k, a, a);
    LeTotal(k, b, b);
    var i :| 0 <= i < |r| && r[i] == b;
    var j :| 0 <= j < |t| && t[j] == a;
    assert Le(k, a, b) && Le(k, b, a);
    SameKeyIff(k, a, b);
  }

  /** Dropping a common first element keeps the agreement within every key. */
  lemma StableTail(k: SortKey, r: seq<Expense>, t: seq<Expense>)
    requires Stable(k, r, t) && r != [] && t != [] && r[0] == t[0]
    ensures Stable(k, r[1..], t[1..])
  {
    assert r == [r[0]] + r[1..] && t == [t[0]] + t[1..];
    forall e0
      ensures Select(r[1..], KeyClass(k, e0)) == Select(t[1..], KeyClass(k, e0))
    {
      var q := KeyClass(k, e0);
      var pre: seq<Expense> := if q(r[0]) then [r[0]] else [];
      SelectCons(r[0], r[1..], q);
      SelectCons(t[0], t[1..], q);
      assert Select(r, q) == Select(t, q);
      assert Select(r[1..], q) == (pre + Select(r[1..], q))[|pre|..];
      assert Select(t[1..], q) == (pre + Select(t[1..], q))[|pre|..];
    }
  }

  /** When the first elements have equal keys, agreement within that key makes
      them the same expense. */
  lemma StableHeadsEqual(k: SortKey, r: seq<Expense>, t: seq<Expense>)
    requires Stable(k, r, t) && r != [] && t != [] && SameKey(k, t[0], r[0])
    ensures r[0] == t[0]
  {
    var a, b := r[0], t[0];
    var q := KeyClass(k, a);
    SameKeyIff(k, a, a);
    LeTotal(k, a, a);
    assert q(a) && q(b);
    assert r == [a] + r[1..] && t == [b] + t[1..];
    SelectCons(a, r[1..], q);
    SelectCons(b, t[1..], q);
    assert Select(r, q)[0] == Select(t, q)[0];
  }

  /** Two sorted lists that agree on the order within every key are equal. */
  lemma {:induction false} SortedAgreeingEqual(k: SortKey, r: seq<Expense>, t: seq<Expense>)
    requires Sorted(k, r) && Sorted(k, t)
    requires Stable(k, r, t)
    ensures r == t
  {
    StablePermutation(k, r, t);
    if r == [] {
      assert |t| == |multiset(t)| == 0;
    } else {
      SortedHeadsSameKey(k, r, t);
      SameKeyIff(k, r[0], t[0]);
      SameKeyIff(k, t[0], r[0]);
      StableHeadsEqual(k, r, t);
      StableTail(k, r, t);
      SortedAgreeingEqual(k, r[1..], t[1..]);
      assert r == [r[0]] + r[1..] && t == [t[0]] + t[1..];
    }
  }

  /** A stable sort has only one possible result: whatever algorithm
      `List.sort` runs, a sorted, stable rearrangement of `s` is `SortBy(k, s)`. */
  lemma StableSortIsUnique(k: SortKey, s: seq<Expense>, r: seq<Expense>)
    requires Sorted(k, r) && Stable(k, r, s)
    ensures r == SortBy(k, s)
  {
    SortBySorted(k, s);
    SortByStable(k, s);
    SortedAgreeingEqual(k, r, SortBy(k, s));
  }
}
