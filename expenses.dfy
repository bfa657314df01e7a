/** The `Expense` record and the list functions the store is specified with:
    order-preserving selection, the category index and the sum of amounts. */
module Expenses {

  /** One recorded expense. The amount is kept exactly, in cents. */
  datatype Expense = Expense(category: string, description: string, amount: int)

  /** The elements of `s` that satisfy `p`, in the order of `s` (a stream `filter`). */
  function Select(s: seq<Expense>, p: Expense -> bool): (r: seq<Expense>)
    ensures |r| <= |s|
    ensures forall e :: e in r ==> e in s && p(e)
  {
    if s == [] then []
    else Select(s[..|s| - 1], p) + (if p(s[|s| - 1]) then [s[|s| - 1]] else [])
  }

  /** `r` can be obtained from `s` by deleting elements, keeping the order of the rest. */
  predicate IsSubsequence(r: seq<Expense>, s: seq<Expense>)
  {
    if r == [] then true
    else if s == [] then false
    else (r[|r| - 1] == s[|s| - 1] && IsSubsequence(r[..|r| - 1], s[..|s| - 1]))
         || IsSubsequence(r, s[..|s| - 1])
  }

  /** Selection keeps the order of the list it selects from. */
  lemma {:induction false} SelectIsSubsequence(s: seq<Expense>, p: Expense -> bool)
    ensures IsSubsequence(Select(s, p), s)
  {
    if s != [] {
      var s', x := s[..|s| - 1], s[|s| - 1];
      SelectIsSubsequence(s', p);
      var r := Select(s, p);
      if p(x) {
        assert r == Select(s', p) + [x];
        assert r[..|r| - 1] == Select(s', p);
      } else {
        assert r == Select(s', p);
      }
    }
  }

  /** Selection keeps every copy of an element that satisfies `p` and no copy of
      one that does not. */
  lemma {:induction false} SelectCount(s: seq<Expense>, p: Expense -> bool)
    ensures forall x :: multiset(Select(s, p))[x] == if p(x) then multiset(s)[x] else 0
  {
    if s != [] {
      SelectCount(s[..|s| - 1], p);
      assert s == s[..|s| - 1] + [s[|s| - 1]];
    }
  }

  /** Selection distributes over concatenation. */
  lemma {:induction false} SelectAppend(a: seq<Expense>, b: seq<Expense>, p: Expense -> bool)
    ensures Select(a + b, p) == Select(a, p) + Select(b, p)
  {
    if b != [] {
      assert (a + b)[..|a + b| - 1] == a + b[..|b| - 1];
      SelectAppend(a, b[..|b| - 1], p);
    } else {
      assert a + b == a;
    }
  }

  /** Selection from a list with one element in front of the rest. */
  lemma {:induction false} SelectCons(x: Expense, s: seq<Expense>, p: Expense -> bool)
    ensures Select([x] + s, p) == (if p(x) then [x] else []) + Select(s, p)
  {
    SelectAppend([x], s, p);
    assert [x][..0] == [];
    assert Select([x], p) == Select([], p) + (if p(x) then [x] else []);
  }

  /** When every element satisfies `p`, nothing is dropped. */
  lemma {:induction false} SelectAll(s: seq<Expense>, p: Expense -> bool)
    requires forall e :: e in s ==> p(e)
    ensures Select(s, p) == s
  {
    if s != [] {
      SelectAll(s[..|s| - 1], p);
      assert s == s[..|s| - 1] + [s[|s| - 1]];
    }
  }

  /** When no element satisfies `p`, nothing is kept. */
  lemma {:induction false} SelectNone(s: seq<Expense>, p: Expense -> bool)
    requires forall e :: e in s ==> !p(e)
    ensures Select(s, p) == []
  {
    if s != [] {
      SelectNone(s[..|s| - 1], p);
      assert s[|s| - 1] in s;
    }
  }

  /** Two lists that are permutations of each other select permutations. */
  lemma SelectPermutation(a: seq<Expense>, b: seq<Expense>, p: Expense -> bool)
    requires multiset(a) == multiset(b)
    ensures multiset(Select(a, p)) == multiset(Select(b, p))
  {
    SelectCount(a, p);
    SelectCount(b, p);
    assert forall x :: multiset(Select(a, p))[x] == multiset(Select(b, p))[x];
  }

  function HasCategory(c: string): Expense -> bool
  {
    (e: Expense) => e.category == c
  }

  /** The expenses of `s` filed under category `c`, in the order of `s`. */
  function InCategory(s: seq<Expense>, c: string): seq<Expense>
  {
    Select(s, HasCategory(c))
  }

  /** The categories used by the expenses of `s`. */
  function Categories(s: seq<Expense>): set<string>
  {
    set e | e in s :: e.category
  }

  /** The category index that adding the expenses of `s` one by one builds:
      a key per category used, mapped to that category's expenses in order. */
  function IndexOf(s: seq<Expense>): map<string, seq<Expense>>
  {
    map c | c in Categories(s) :: InCategory(s, c)
  }

  /** Appending one expense to the history appends it to its own bucket only,
      creating the bucket when the category is new. */
  lemma IndexOfAppend(s: seq<Expense>, e: Expense)
    ensures IndexOf(s + [e]) ==
      IndexOf(s)[e.category := (if e.category in IndexOf(s) then IndexOf(s)[e.category] else []) + [e]]
  {
    var m, m' := IndexOf(s), IndexOf(s + [e]);
    var expected := m[e.category := (if e.category in m then m[e.category] else []) + [e]];
    assert (s + [e])[..|s + [e]| - 1] == s;
    assert Categories(s + [e]) == Categories(s) + {e.category};
    forall c | c in m'
      ensures m'[c] == expected[c]
    {
      if c == e.category && c !in m {
        SelectNone(s, HasCategory(c));
      }
    }
  }

  /** Every bucket of the index holds at least one expense. */
  lemma IndexBucketsNonEmpty(s: seq<Expense>)
    ensures forall c :: c in IndexOf(s) ==> IndexOf(s)[c] != []
  {
    forall c | c in IndexOf(s)
      ensures IndexOf(s)[c] != []
    {
      var e :| e in s && e.category == c;
      SelectCount(s, HasCategory(c));
      assert multiset(InCategory(s, c))[e] > 0;
    }
  }

  /** The sum of the amounts, as `mapToDouble(Expense::getAmount).sum()` but exact. */
  function Sum(s: seq<Expense>): int
  {
    if s == [] then 0 else Sum(s[..|s| - 1]) + s[|s| - 1].amount
  }

  lemma {:induction false} SumAppend(a: seq<Expense>, b: seq<Expense>)
    ensures Sum(a + b) == Sum(a) + Sum(b)
  {
    if b != [] {
      assert (a + b)[..|a + b| - 1] == a + b[..|b| - 1];
      SumAppend(a, b[..|b| - 1]);
    } else {
      assert a + b == a;
    }
  }

  /** Taking the element at `i` out of a list takes its amount out of the sum. */
  lemma SumRemove(b: seq<Expense>, i: nat)
    requires i < |b|
    ensures Sum(b) == Sum(b[..i] + b[i + 1..]) + b[i].amount
  {
    assert b == b[..i] + [b[i]] + b[i + 1..];
    SumAppend(b[..i] + [b[i]], b[i + 1..]);
    SumAppend(b[..i], [b[i]]);
    SumAppend(b[..i], b[i + 1..]);
    assert Sum([b[i]]) == b[i].amount by {
      assert [b[i]][..0] == [];
    }
  }

  /** Taking the element at `i` out of a list takes one copy out of its multiset. */
  lemma MultisetRemove(b: seq<Expense>, i: nat)
    requires i < |b|
    ensures multiset(b[..i] + b[i + 1..]) == multiset(b) - multiset{b[i]}
  {
    assert b == b[..i] + [b[i]] + b[i + 1..];
  }

  /** Reordering a list does not change its sum. */
  lemma {:induction false} SumPermutation(a: seq<Expense>, b: seq<Expense>)
    requires multiset(a) == multiset(b)
    ensures Sum(a) == Sum(b)
  {
    if a == [] {
      assert |b| == |multiset(b)| == 0;
    } else {
      var a', x := a[..|a| - 1], a[|a| - 1];
      assert a == a' + [x];
      assert multiset(a') == multiset(a) - multiset{x};
      assert x in multiset(b);
      var i :| 0 <= i < |b| && b[i] == x;
      MultisetRemove(b, i);
      SumPermutation(a', b[..i] + b[i + 1..]);
      SumRemove(b, i);
    }
  }
}
