/** The expense store of the tracker window: the list of expenses and the
    category index beside it, with the operations the window's buttons run. */
module ExpenseTracker {
  import opened Text
  import opened Expenses
  import opened Sorting
  import opened Report

  /** What the table shows after a refresh, or the `NullPointerException`
      the refresh throws when the selected category has no bucket. */
  datatype View = Rows(rows: seq<Expense>) | NullPointerException

  /** The search test: the lower-cased description contains the lower-cased term. */
  predicate Matches(e: Expense, term: string)
  {
    Contains(Lower(e.description), Lower(term))
  }

  function MatchesTerm(term: string): Expense -> bool
  {
    (e: Expense) => Matches(e, term)
  }

  class ExpenseStore {
    /** The expenses in table order: insertion order until a sort reorders it. */
    var expenses: seq<Expense>
    /** The category index, filled in by `Add` and never touched by `Sort`. */
    var expenseCategoryMap: map<string, seq<Expense>>
    /** Every expense added so far, in the order it was added. */
    ghost var added: seq<Expense>

    /** The list holds what was added, in some order, and every bucket holds
        its category's expenses in the order they were added. */
    ghost predicate Valid()
      reads this
    {
      multiset(expenses) == multiset(added) && expenseCategoryMap == IndexOf(added)
    }

    constructor ()
      ensures Valid()
      ensures expenses == [] && expenseCategoryMap == map[] && added == []
      ensures Total() == 0
    {
      expenses := [];
      expenseCategoryMap := map[];
      added := [];
    }

    /** "Add Expense": append to the list and to the category's bucket,
        creating the bucket on the category's first use. */
    method Add(category: string, description: string, amount: int)
      requires Valid()
      modifies this
      ensures Valid()
      ensures expenses == old(expenses) + [Expense(category, description, amount)]
      ensures added == old(added) + [Expense(category, description, amount)]
      ensures expenseCategoryMap == old(expenseCategoryMap)[category :=
        (if category in old(expenseCategoryMap) then old(expenseCategoryMap)[category] else [])
        + [Expense(category, description, amount)]]
      ensures forall c :: c in expenseCategoryMap ==> expenseCategoryMap[c] != []
    {
      var expense := Expense(category, description, amount);
      ghost var history := added + [expense];
      IndexOfAppend(added, expense);
      expenses := expenses + [expense];
      if category in expenseCategoryMap {
        expenseCategoryMap := expenseCategoryMap[category := expenseCategoryMap[category] + [expense]];
      } else {
        var categoryExpenses := [expense];
        expenseCategoryMap := expenseCategoryMap[category := categoryExpenses];
        assert categoryExpenses == [] + [expense];
      }
      added := history;
      IndexBucketsNonEmpty(added);
    }

    /** The rows the table is refilled with for the selected category: the
        whole list for "All", otherwise that category's bucket. */
    function Filter(selected: string): (v: View)
      reads this
      requires Valid()
      ensures selected == "All" ==> v == Rows(expenses)
      ensures selected != "All" ==>
        (v == NullPointerException <==> forall e :: e in expenses ==> e.category != selected)
      ensures selected != "All" && v.Rows? ==>
        v.rows == InCategory(added, selected) && v.rows != [] &&
        multiset(v.rows) == multiset(InCategory(expenses, selected))
    {
      IndexBucketsNonEmpty(added);
      SelectPermutation(added, expenses, HasCategory(selected));
      assert forall e :: e in expenses <==> e in added by {
        assert forall e :: e in expenses <==> e in multiset(expenses);
      }
      if selected == "All" then Rows(expenses)
      else if selected in expenseCategoryMap then Rows(expenseCategoryMap[selected])
      else NullPointerException
    }

    /** "Search": the expenses whose description contains the term, ignoring
        case, in table order. */
    function Search(term: string): (r: seq<Expense>)
      reads this
      ensures IsSubsequence(r, expenses)
      ensures forall e :: multiset(r)[e] == if Matches(e, term) then multiset(expenses)[e] else 0
      ensures term == "" ==> r == expenses
    {
      SelectIsSubsequence(expenses, MatchesTerm(term));
      SelectCount(expenses, MatchesTerm(term));
      if term == "" then
        assert forall e :: Matches(e, term) by {
          forall e ensures Matches(e, term) {
            ContainsEmpty(Lower(e.description));
          }
        }
        SelectAll(expenses, MatchesTerm(term));
        Select(expenses, MatchesTerm(term))
      else
        Select(expenses, MatchesTerm(term))
    }

    /** "Sort": reorder the list by category, ignoring case, or by amount,
        keeping equal keys in their order; any other choice changes nothing.
        The category index is left as it was. */
    method Sort(selectedSort: string)
      requires Valid()
      modifies this
      ensures Valid()
      ensures expenseCategoryMap == old(expenseCategoryMap) && added == old(added)
      ensures multiset(expenses) == multiset(old(expenses))
      ensures Total() == old(Total())
      ensures selectedSort == "Category" ==> expenses == SortBy(ByCategory, old(expenses))
      ensures selectedSort == "Amount" ==> expenses == SortBy(ByAmount, old(expenses))
      ensures selectedSort == "Category" ==>
        Sorted(ByCategory, expenses) && Stable(ByCategory, expenses, old(expenses))
      ensures selectedSort == "Amount" ==>
        Sorted(ByAmount, expenses) && Stable(ByAmount, expenses, old(expenses))
      ensures selectedSort != "Category" && selectedSort != "Amount" ==> expenses == old(expenses)
    {
      if selectedSort == "Category" {
        SortBySorted(ByCategory, expenses);
        SortByStable(ByCategory, expenses);
        expenses := SortBy(ByCategory, expenses);
      } else if selectedSort == "Amount" {
        SortBySorted(ByAmount, expenses);
        SortByStable(ByAmount, expenses);
        expenses := SortBy(ByAmount, expenses);
      }
    }

    /** "Total Expense": the sum of every amount, whatever order the list is in. */
    function Total(): (t: int)
      reads this
      requires Valid()
      ensures t == Sum(expenses) && t == Sum(added)
    {
      SumPermutation(expenses, added);
      Sum(expenses)
    }

    /** "Generate Report": one section per map entry, taken in `order`, the
        order in which the map hands out its entries. */
    method GenerateReport(order: seq<string>) returns (sections: seq<Section>)
      requires Valid()
      requires forall c :: c in order <==> c in expenseCategoryMap
      requires Distinct(order)
      ensures sections == Grouped(expenseCategoryMap, order)
      ensures forall i :: 0 <= i < |sections| ==>
        sections[i].category == order[i] && sections[i].entries != [] &&
        forall e :: e in sections[i].entries ==> e.category == order[i]
      ensures multiset(Entries(sections)) == multiset(expenses)
      ensures Sum(Entries(sections)) == Total()
    {
      sections := [];
      var i := 0;
      while i < |order|
        invariant 0 <= i <= |order|
        invariant sections == Grouped(expenseCategoryMap, order[..i])
      {
        var category := order[i];
        sections := sections + [Section(category, expenseCategoryMap[category])];
        i := i + 1;
        assert order[..i][..i - 1] == order[..i - 1];
      }
      assert order[..i] == order;
      IndexBucketsNonEmpty(added);
      forall j | 0 <= j < |sections|
        ensures sections[j].category == order[j] && sections[j].entries != []
        ensures forall e :: e in sections[j].entries ==> e.category == order[j]
      {
        assert sections[j].entries == InCategory(added, order[j]);
      }
      ReportIsPermutation(added, order);
      SumPermutation(Entries(sections), expenses);
    }
  }

  /** A new store after adding `a`, `b` and `c` through the "Add Expense" button. */
  method StoreOfThree(a: Expense, b: Expense, c: Expense) returns (store: ExpenseStore)
    ensures fresh(store) && store.Valid()
    ensures store.expenses == [a, b, c] && store.added == [a, b, c]
  {
    store := new ExpenseStore();
    store.Add(a.category, a.description, a.amount);
    store.Add(b.category, b.description, b.amount);
    store.Add(c.category, c.description, c.amount);
  }

  /** The worked session of the tracker, for any three expenses shaped like
      Coffee (Food, 3.50), Bus (Transportation, 2.00) and Lunch (Food, 12.00):
      the total, then a sort by amount. */
  method ExampleSession(coffee: Expense, bus: Expense, lunch: Expense)
    requires bus.amount < coffee.amount < lunch.amount
  {
    var store := StoreOfThree(coffee, bus, lunch);
    SumOfThree(coffee, bus, lunch);
    assert store.Total() == coffee.amount + bus.amount + lunch.amount;
    SortByAmountExample(coffee, bus, lunch);
    store.Sort("Amount");
    assert store.expenses == [bus, coffee, lunch];
  }

  /** The category filter on the same three expenses: the two Food expenses
      in the order they were added, the Bus alone, and the exception for a
      category nobody used. */
  method ExampleFilter(coffee: Expense, bus: Expense, lunch: Expense, unused: string)
    requires coffee.category == lunch.category != bus.category
    requires "All" != coffee.category && "All" != bus.category && "All" != unused
    requires unused != coffee.category && unused != bus.category
  {
    var store := StoreOfThree(coffee, bus, lunch);
    assert store.Filter("All") == Rows([coffee, bus, lunch]);
    BucketsOfThree(coffee, bus, lunch);
    assert store.Filter(coffee.category) == Rows([coffee, lunch]);
    assert store.Filter(bus.category) == Rows([bus]);
    assert store.Filter(unused) == NullPointerException;
  }

  /** The index goes stale when the list is sorted: for expenses shaped like
      Coffee (Food, 3.50), Bus (Transportation, 2.00) and Lunch (Food, 1.00),
      a sort by amount puts Lunch before Coffee in the list, while their
      bucket still holds them in the order they were added. */
  method StaleBucketAfterSort(coffee: Expense, bus: Expense, lunch: Expense)
    requires coffee.category == lunch.category != bus.category
    requires coffee.category != "All"
    requires lunch.amount < bus.amount < coffee.amount
  {
    var store := StoreOfThree(coffee, bus, lunch);
    BucketsOfThree(coffee, bus, lunch);
    SortByAmountReversed(coffee, bus, lunch);
    store.Sort("Amount");
    assert store.expenses == [lunch, bus, coffee];
    assert store.Filter(coffee.category) == Rows([coffee, lunch]);
  }

  /** "All" is offered as a category, so an expense can be filed under it;
      filtering by "All" still shows the whole list, not that bucket. */
  method AllIsAlsoACategory()
  {
    var lunch, gift := Expense("Food", "Lunch", 1200), Expense("All", "Gift", 500);
    var store := new ExpenseStore();
    store.Add(lunch.category, lunch.description, lunch.amount);
    store.Add(gift.category, gift.description, gift.amount);
    assert store.expenseCategoryMap["All"] == [gift];
    assert store.Filter("All") == Rows([lunch, gift]);
  }

  /** The sessions with the amounts in cents; the stale-index session uses a
      Lunch of 1.00, cheaper than the Bus. */
  method WorkedExample()
  {
    var coffee, bus, lunch := Expense("Food", "Coffee", 350), Expense("Transportation", "Bus", 200),
                              Expense("Food", "Lunch", 1200);
    ExampleSession(coffee, bus, lunch);
    ExampleFilter(coffee, bus, lunch, "Entertainment");
    StaleBucketAfterSort(coffee, bus, Expense("Food", "Lunch", 100));
  }

  /** The sum of a three-expense list. */
  lemma SumOfThree(a: Expense, b: Expense, c: Expense)
    ensures Sum([a, b, c]) == a.amount + b.amount + c.amount
  {
    assert [a, b, c][..2] == [a, b] && [a, b][..1] == [a] && [a][..0] == [];
    assert Sum([a]) == a.amount;
    assert Sum([a, b]) == a.amount + b.amount;
  }

  /** The buckets of three expenses, the first and last sharing a category. */
  lemma BucketsOfThree(a: Expense, b: Expense, c: Expense)
    requires a.category == c.category != b.category
    ensures InCategory([a, b, c], a.category) == [a, c]
    ensures InCategory([a, b, c], b.category) == [b]
  {
    assert [a, b, c][..2] == [a, b] && [a, b][..1] == [a] && [a][..0] == [];
    assert InCategory([a], a.category) == [a] && InCategory([a], b.category) == [];
    assert InCategory([a, b], a.category) == [a] && InCategory([a, b], b.category) == [b];
  }

  /** Sorting three expenses with distinct amounts by amount. */
  lemma SortByAmountExample(a: Expense, b: Expense, c: Expense)
    requires b.amount < a.amount < c.amount
    ensures SortBy(ByAmount, [a, b, c]) == [b, a, c]
  {
    assert [b, c][1..] == [c] && [a, b, c][1..] == [b, c] && [c][1..] == [];
    assert SortBy(ByAmount, [c]) == [c];
    assert SortBy(ByAmount, [b, c]) == [b, c];
    assert Insert(ByAmount, a, [c]) == [a, c];
    assert Insert(ByAmount, a, [b, c]) == [b, a, c];
  }

  /** Sorting three expenses given in decreasing order of amount reverses them. */
  lemma SortByAmountReversed(a: Expense, b: Expense, c: Expense)
    requires c.amount < b.amount < a.amount
    ensures SortBy(ByAmount, [a, b, c]) == [c, b, a]
  {
    assert [b, c][1..] == [c] && [a, b, c][1..] == [b, c] && [c][1..] == [];
    assert [c, b][1..] == [b];
    assert SortBy(ByAmount, [c]) == [c];
    assert Insert(ByAmount, b, [c]) == [c, b];
    assert SortBy(ByAmount, [b, c]) == [c, b];
    assert Insert(ByAmount, a, [b]) == [b, a];
    assert Insert(ByAmount, a, [c, b]) == [c, b, a];
  }
}
