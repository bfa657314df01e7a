# Expense store of the Expense Tracker

The Expense Tracker is a Swing window. Its buttons add an expense, filter the
table by category, search descriptions, sort, total the amounts and print a
report grouped by category. The logic behind those buttons works on two
fields of `ExpenseTrackerApp`:

- `expenses`: the list of `Expense(category, description, amount)` records,
  in table order;
- `expenseCategoryMap`: an index from each category name to the list of that
  category's expenses.

This project models that store as the class `ExpenseTracker.ExpenseStore`.
The two fields are a `seq` and a `map` that the methods reassign.

- `Add` and `Sort` are methods that change the fields.
- `Filter`, `Search` and `Total` are functions that read them.
- `GenerateReport` is a method with the source's loop over the map's entries.

A ghost field `added` records every expense in the order it was added. The
class invariant `Valid()` states two facts:

- `expenses` is a rearrangement of `added`;
- the index is exactly `IndexOf(added)`: one key per category used, mapped to
  that category's expenses in the order they were added.

Files:

- `text.dfy` (module `Text`): ASCII lower-casing, substring search and
  lexicographic order. These stand in for `toLowerCase`, `contains` and
  `compareToIgnoreCase`.
- `expenses.dfy` (module `Expenses`): the `Expense` record. It also holds
  order-preserving selection (a stream `filter`), the category index
  `IndexOf`, and `Sum`.
- `sorting.dfy` (module `Sorting`): the two comparators and a stable sort
  `SortBy`. The source calls `List.sort`, a stable library sort. The lemma
  `StableSortIsUnique` proves that every sorted, stable rearrangement equals
  `SortBy`, so `SortBy` pins down the library's result whatever algorithm it
  runs.
- `report.dfy` (module `Report`): the grouping behind the report, one section
  per map entry.
- `store.dfy` (module `ExpenseTracker`): the store class and some client
  methods that walk through concrete sessions.

Amounts are integers in cents. The source's quirks are reproduced rather than
repaired:

- **Stale index after a sort.** `Sort` reorders `expenses` but never touches
  `expenseCategoryMap`. A bucket then holds the same expenses as the filtered
  list, possibly in a different order. The client method
  `StaleBucketAfterSort` exhibits this: after a sort by amount the list has
  Lunch before Coffee, while the "Food" bucket still has Coffee before Lunch.
- **Unknown category.** Filtering by a category that was never added reads
  `null` from the map, and the loop at line 119 throws. For any selection
  other than "All", `Filter` returns `NullPointerException` exactly when no
  expense has that category; "All" always shows the whole list. Showing an
  empty table instead would need a null check after line 116.
- **"All" as a category.** The category box offers "All", so an expense can
  be filed under the key "All", yet the filter treats "All" as "no filter".
  The client method `AllIsAlsoACategory` shows both facts at once.

The client methods `StoreOfThree`, `ExampleSession`, `ExampleFilter` and
`WorkedExample` replay a session with three expenses: Coffee (Food, 3.50),
Bus (Transportation, 2.00) and Lunch (Food, 12.00). They check the list, the
buckets, the total and the sort by amount. `SortByAmountReversed` gives the
sort that `StaleBucketAfterSort` needs.

## Model

| member | source | states |
|---|---|---|
| Text.LowerChar | ExpenseTrackerApp.java:164 | lower-casing maps 'A'..'Z' to 'a'..'z' and leaves every other character alone; no upper-case letter remains |
| Text.Lower | ExpenseTrackerApp.java:164 | `toLowerCase` keeps the length and lower-cases each character in place |
| Text.Contains | ExpenseTrackerApp.java:164 | `String.contains`; its meaning, an occurrence at some offset, is proved in `Text.ContainsAt` |
| Text.ContainsAt | ExpenseTrackerApp.java:164 | `contains(s, t)` holds exactly when `t` occurs in `s` at some offset |
| Text.LexLe | ExpenseTrackerApp.java:183 | the order `compareTo(a, b) <= 0` on character codes; it is a total order by the four lemmas below |
| Text.LexLeReflexive | ExpenseTrackerApp.java:183 | `compareToIgnoreCase` order: every string is at most itself |
| Text.LexLeTotal | ExpenseTrackerApp.java:183 | any two strings are comparable |
| Text.LexLeTransitive | ExpenseTrackerApp.java:183 | the string order is transitive |
| Text.LexLeAntisymmetric | ExpenseTrackerApp.java:183 | strings ordered both ways are equal, so a comparator result of 0 means equal lower-cased keys |
| Expenses.IndexOf | ExpenseTrackerApp.java:141-150 | the index the adds build: one key per category used, mapped to that category's expenses in order of addition; `Expenses.IndexOfAppend` proves one add updates it exactly as the source's branches do |
| Expenses.Sum | ExpenseTrackerApp.java:196-198 | the exact sum of the amounts; `Expenses.SumAppend` and `Expenses.SumPermutation` prove it additive and independent of order |
| Expenses.Select | ExpenseTrackerApp.java:163-165 | a stream `filter` keeps only elements of the list that pass the test, and is no longer than the list |
| Expenses.SelectIsSubsequence | ExpenseTrackerApp.java:163-165 | filtering keeps the list's order: the result is a subsequence of the list |
| Expenses.SelectCount | ExpenseTrackerApp.java:163-165 | filtering keeps every copy of a passing element and no copy of a failing one |
| Expenses.SelectAppend | ExpenseTrackerApp.java:141-144 | filtering a list extended at the end extends the filtered list at the end |
| Expenses.SelectPermutation | ExpenseTrackerApp.java:183-185 | filtering two rearrangements of a list gives two rearrangements of one result, so a bucket matches the sorted list's category up to order |
| Expenses.IndexOfAppend | ExpenseTrackerApp.java:141-150 | adding an expense to the history appends it to its own category's bucket, creating a one-element bucket on first use, and leaves every other bucket unchanged |
| Expenses.IndexBucketsNonEmpty | ExpenseTrackerApp.java:143-150 | every bucket of the index holds at least one expense |
| Expenses.SumAppend | ExpenseTrackerApp.java:196-198 | the sum of a concatenation is the sum of the sums |
| Expenses.SumPermutation | ExpenseTrackerApp.java:196-198 | rearranging the list, as a sort does, leaves its total unchanged |
| Sorting.Le | ExpenseTrackerApp.java:183-185 | the comparator read as `compare(a, b) <= 0`: `compareToIgnoreCase` on categories or `Double.compare` on amounts; `Sorting.LeTotal` and `Sorting.LeTransitive` prove it a total preorder |
| Sorting.SameKey | ExpenseTrackerApp.java:183-185 | the comparator returns 0; `Sorting.SameKeyIff` proves it is exactly "ordered both ways" |
| Sorting.LeTotal | ExpenseTrackerApp.java:183-185 | both comparators order any two expenses one way or the other |
| Sorting.LeTransitive | ExpenseTrackerApp.java:183-185 | both comparators are transitive |
| Sorting.SameKeyIff | ExpenseTrackerApp.java:183-185 | a comparator returns 0 exactly when the lower-cased categories, or the amounts, are equal |
| Sorting.Insert | ExpenseTrackerApp.java:183-185 | inserting one expense into a list adds exactly that expense to its elements |
| Sorting.SortBy | ExpenseTrackerApp.java:183-185 | the stable sort keeps exactly the list's elements, with their counts |
| Sorting.InsertSorted | ExpenseTrackerApp.java:183-185 | inserting into a sorted list keeps it sorted |
| Sorting.SortBySorted | ExpenseTrackerApp.java:183-185 | the sorted list is non-decreasing in lower-cased category, or in amount |
| Sorting.InsertSelect | ExpenseTrackerApp.java:183-185 | insertion places an expense behind no expense of its own key: within its key it comes first, as in `[x] + s`, and each key's order is otherwise intact |
| Sorting.SortByStable | ExpenseTrackerApp.java:183-185 | the sort is stable: the expenses of each key keep their relative order |
| Sorting.StablePermutation | ExpenseTrackerApp.java:183-185 | two lists that agree on the order within every key hold the same elements |
| Sorting.SortedAgreeingEqual | ExpenseTrackerApp.java:183-185 | two sorted lists that agree on the order within every key are equal |
| Sorting.StableSortIsUnique | ExpenseTrackerApp.java:183-185 | any sorted, stable rearrangement of the list, which is what `List.sort` promises, equals `SortBy` |
| Report.Grouped | ExpenseTrackerApp.java:209-211 | the report has one section per map entry, in the map's iteration order, headed by the key and holding that key's bucket |
| Report.GroupedCount | ExpenseTrackerApp.java:209-218 | an expense appears in the report as often as it was added when its category is visited, otherwise never |
| Report.ReportIsPermutation | ExpenseTrackerApp.java:209-218 | when every category is visited once, the report lists exactly the expenses added, the same number of them, with the same sum |
| ExpenseTracker.Matches | ExpenseTrackerApp.java:164 | the search test: the lower-cased description contains the lower-cased term; `ExpenseTracker.ExpenseStore.Search` keeps exactly the expenses that pass it |
| ExpenseTracker.ExpenseStore.Valid | ExpenseTrackerApp.java:141-150 | the invariant the source keeps by hand: the list is a rearrangement of the expenses added and the index is `IndexOf` of them; the constructor, `Add` and `Sort` each establish or keep it |
| ExpenseTracker.ExpenseStore.constructor | ExpenseTrackerApp.java:21-22 | a new store has an empty list, an empty index, a total of 0, and satisfies the invariant |
| ExpenseTracker.ExpenseStore.Add | ExpenseTrackerApp.java:136-150 | appends the expense to the end of the list; appends it to the end of its bucket, creating a one-element bucket if the key is absent; leaves other buckets unchanged; every bucket stays non-empty; keeps the invariant |
| ExpenseTracker.ExpenseStore.Filter | ExpenseTrackerApp.java:112-119 | "All" shows the list itself; any other category shows its bucket, which holds that category's expenses in insertion order and the same expenses as the filtered list; a category with no expense throws `NullPointerException`, in both directions |
| ExpenseTracker.ExpenseStore.Search | ExpenseTrackerApp.java:163-165 | the result is the order-preserving subsequence of the list whose lower-cased descriptions contain the lower-cased term, with every copy; an empty term returns the whole list |
| ExpenseTracker.ExpenseStore.Sort | ExpenseTrackerApp.java:180-186 | "Category" and "Amount" leave a rearrangement that is sorted by that key and stable; any other key changes nothing; the index, the history and the total are unchanged; the invariant is kept |
| ExpenseTracker.ExpenseStore.Total | ExpenseTrackerApp.java:196-198 | the total is the sum of the amounts in the list, which equals the sum over every expense added, whatever the list's order |
| ExpenseTracker.ExpenseStore.GenerateReport | ExpenseTrackerApp.java:209-218 | the loop yields one section per key in iteration order, each with a non-empty bucket of that category; together the sections hold exactly the expenses of the list, with the same total |
| ExpenseTracker.StoreOfThree | ExpenseTrackerApp.java:140-150 | three successive adds to a new store leave exactly those three expenses in the list, in order |
| ExpenseTracker.BucketsOfThree | ExpenseTrackerApp.java:143-150 | with the first and third expense in one category, that bucket is the two of them in order and the second's bucket is the second alone |
| ExpenseTracker.SumOfThree | ExpenseTrackerApp.java:196-198 | the total of three expenses is the sum of their amounts |
| ExpenseTracker.SortByAmountExample | ExpenseTrackerApp.java:185 | sorting three expenses with distinct amounts by amount puts them in increasing order of amount |
| ExpenseTracker.SortByAmountReversed | ExpenseTrackerApp.java:185 | sorting three expenses given in decreasing order of amount reverses them |

## Left out

- The Swing window: construction, layout, the table model's rows and the dialogs. The selected combobox item and the typed texts are parameters of the operations.
- `Double.parseDouble` of the amount text and its exception on bad input: `Add` takes an already-parsed amount.
- Floating point: amounts are exact integers in cents, so rounding in the summation and the NaN ordering of `Double.compare` are not modelled.
- ExpenseTracker.ExpenseStore.GenerateReport: the text of the report, with Java's number formatting, is not built; only which expenses land under which heading is modelled.
- ExpenseTracker.ExpenseStore.GenerateReport: `HashMap`'s iteration order is unspecified, so the method takes it as a parameter listing each key once.
- Text.Lower: case folding covers ASCII letters only; Java's full Unicode rules for `toLowerCase` and `compareToIgnoreCase` are not modelled.
- Text.LexLe: compares Unicode scalar values, while Java compares UTF-16 code units; the two orders differ when a character above U+FFFF meets one in U+E000..U+FFFF.
- Sorting.SortBy: compares lower-cased categories with an ASCII lower-casing, whereas `compareToIgnoreCase` folds each character through both upper and lower case; for ASCII the two orders agree.
- Object identity: Java compares `Expense` objects by reference, while the model compares them by value. Two adds of equal data are two equal elements, so multisets count both.
- `main`, `SwingUtilities.invokeLater` and the unused `Cipher` import: event-thread plumbing with no store logic.
- A null search term (the dialog is cancelled) does nothing in the source; `Search` is modelled only for a given term.
