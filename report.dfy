/** The grouping behind "Generate Report": one section per entry of the
    category map, in the order the map hands its entries out. The text of the
    report is not modelled, only which expenses land under which heading. */
module Report {
  import opened Expenses

  /** One block of the report: the category heading and the bucket under it. */
  datatype Section = Section(category: string, entries: seq<Expense>)

  /** No category is listed twice. */
  predicate Distinct(order: seq<string>)
  {
    forall i, j :: 0 <= i < j < |order| ==> order[i] != order[j]
  }

  /** The sections for the map's entries taken in `order`. */
  function Grouped(m: map<string, seq<Expense>>, order: seq<string>): (r: seq<Section>)
    requires forall c :: c in order ==> c in m
    ensures |r| == |order|
    ensures forall i :: 0 <= i < |r| ==> r[i] == Section(order[i], m[order[i]])
  {
    if order == [] then []
    else Grouped(m, order[..|order| - 1]) + [Section(order[|order| - 1], m[order[|order| - 1]])]
  }

  /** Every expense of the report, section after section. */
  function Entries(sections: seq<Section>): seq<Expense>
  {
    if sections == [] then []
    else Entries(sections[..|sections| - 1]) + sections[|sections| - 1].entries
  }

  /** Adding one section at the end adds its entries at the end. */
  lemma EntriesAppend(sections: seq<Section>, last: Section)
    ensures Entries(sections + [last]) == Entries(sections) + last.entries
  {
    assert (sections + [last])[..|sections|] == sections;
  }

  /** With no category listed twice, an expense shows up in the report exactly
      as many times as it was added when its category is listed, else never. */
  lemma {:induction false} GroupedCount(s: seq<Expense>, order: seq<string>, x: Expense)
    requires forall c :: c in order ==> c in IndexOf(s)
    requires Distinct(order)
    ensures multiset(Entries(Grouped(IndexOf(s), order)))[x]
            == if x.category in order then multiset(s)[x] else 0
  {
    if order != [] {
      var m := IndexOf(s);
      var o', c := order[..|order| - 1], order[|order| - 1];
      assert order == o' + [c];
      GroupedCount(s, o', x);
      var before := Grouped(m, o');
      assert Grouped(m, order) == before + [Section(c, m[c])];
      EntriesAppend(before, Section(c, m[c]));
      assert m[c] == InCategory(s, c);
      SelectCount(s, HasCategory(c));
    }
  }

  /** When `order` lists every category once, the report holds exactly the
      expenses added: same elements, same count, same sum. */
  lemma ReportIsPermutation(s: seq<Expense>, order: seq<string>)
    requires forall c :: c in order <==> c in Categories(s)
    requires Distinct(order)
    ensures multiset(Entries(Grouped(IndexOf(s), order))) == multiset(s)
    ensures |Entries(Grouped(IndexOf(s), order))| == |s|
    ensures Sum(Entries(Grouped(IndexOf(s), order))) == Sum(s)
  {
    var r := Entries(Grouped(IndexOf(s), order));
    forall x
      ensures multiset(r)[x] == multiset(s)[x]
    {
      GroupedCount(s, order, x);
      if x.category !in order {
        assert x !in s;
      }
    }
    assert multiset(r) == multiset(s);
    assert |r| == |multiset(r)| == |multiset(s)| == |s|;
    SumPermutation(r, s);
  }
}
