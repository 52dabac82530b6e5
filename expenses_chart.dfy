/** The "Expenses Breakdown" pie chart (src/components/stats/ExpensesChart.tsx):
    per-category totals over all tasks, the categories with a positive total as slices,
    and a colour per slice position. */
module ExpensesChart {
  import opened Types
  import opened TaskStats

  /** The `reduce` that adds up the four fields over the task list, from all zeros. */
  function CategoryTotals(ts: seq<Task>): (r: Expenses)
    ensures forall c :: Amount(r, c) == SumCategory(ts, c)
    ensures Total(r) == SumTotals(ts)
  {
    if ts == [] then NoExpenses
    else
      var acc := CategoryTotals(ts[..|ts| - 1]);
      var e := ts[|ts| - 1].expenses;
      SumByCategory(ts);
      Expenses(acc.food + e.food, acc.accommodation + e.accommodation, acc.water + e.water, acc.other + e.other)
  }

  datatype Slice = Slice(category: Category, value: int)

  /** Position of a category in the chart's fixed order. */
  function CategoryIndex(c: Category): nat {
    match c
    case Food => 0
    case Accommodation => 1
    case Water => 2
    case Other => 3
  }

  /** Slices in strictly increasing category order. */
  predicate Ordered(s: seq<Slice>) {
    forall i, j :: 0 <= i < j < |s| ==> CategoryIndex(s[i].category) < CategoryIndex(s[j].category)
  }

  /** `.filter(item => item.value > 0)`. */
  function KeepPositive(s: seq<Slice>): (r: seq<Slice>)
    ensures |r| <= |s|
    ensures forall x :: x in r <==> x in s && x.value > 0
  {
    if s == [] then []
    else if s[0].value > 0 then [s[0]] + KeepPositive(s[1..])
    else KeepPositive(s[1..])
  }

  /** The filter keeps the order of what it keeps. */
  lemma {:induction false} KeepPositiveOrdered(s: seq<Slice>)
    requires Ordered(s)
    ensures Ordered(KeepPositive(s))
  {
    if s != [] {
      var tail := s[1..];
      KeepPositiveOrdered(tail);
      if s[0].value > 0 {
        var rest := KeepPositive(tail);
        forall y | y in rest ensures CategoryIndex(s[0].category) < CategoryIndex(y.category) {
          FollowsHead(s, y);
        }
        OrderedCons(s[0], rest);
      }
    }
  }

  lemma FollowsHead(s: seq<Slice>, y: Slice)
    requires Ordered(s) && s != [] && y in s[1..]
    ensures CategoryIndex(s[0].category) < CategoryIndex(y.category)
  {
    var k :| 0 <= k < |s[1..]| && s[1..][k] == y;
    assert s[k + 1] == y;
  }

  lemma OrderedCons(x: Slice, rest: seq<Slice>)
    requires Ordered(rest)
    requires forall y :: y in rest ==> CategoryIndex(x.category) < CategoryIndex(y.category)
    ensures Ordered([x] + rest)
  {
    var s := [x] + rest;
    forall i, j | 0 <= i < j < |s| ensures CategoryIndex(s[i].category) < CategoryIndex(s[j].category) {
      assert s[j] == rest[j - 1];
      if i > 0 {
        assert s[i] == rest[i - 1];
      }
    }
  }

  /** The four slices in the fixed order Food, Accommodation, Water, Other. */
  function AllSlices(totals: Expenses): (r: seq<Slice>)
    ensures Ordered(r)
    ensures forall x :: x in r <==> x == Slice(x.category, Amount(totals, x.category))
  {
    var r := [Slice(Food, totals.food), Slice(Accommodation, totals.accommodation),
      Slice(Water, totals.water), Slice(Other, totals.other)];
    assert forall c :: r[CategoryIndex(c)] == Slice(c, Amount(totals, c));
    r
  }

  /** The chart data: a category is shown exactly when its total is positive, with that
      total, at most once and in the fixed order. */
  function ChartData(totals: Expenses): (r: seq<Slice>)
    ensures |r| <= 4
    ensures forall i :: 0 <= i < |r| ==> r[i].value > 0 && r[i].value == Amount(totals, r[i].category)
    ensures forall c :: Slice(c, Amount(totals, c)) in r <==> Amount(totals, c) > 0
    ensures Ordered(r)
  {
    var all := AllSlices(totals);
    KeepPositiveOrdered(all);
    var r := KeepPositive(all);
    assert forall i :: 0 <= i < |r| ==> r[i] in all;
    r
  }

  /** A category appears in the chart at most once, with its total. */
  lemma ShownWithTotal(totals: Expenses, c: Category)
    ensures (exists i :: 0 <= i < |ChartData(totals)| && ChartData(totals)[i].category == c) <==> Amount(totals, c) > 0
  {
    var r := ChartData(totals);
    if Amount(totals, c) > 0 {
      assert Slice(c, Amount(totals, c)) in r;
    }
  }

  const Colors: seq<string> := ["#FFC107", "#FF9933", "#FF6600", "#800000"]

  /** `COLORS[index % COLORS.length]`. */
  function SliceColor(i: nat): (r: string)
    ensures r in Colors
    ensures i < |Colors| ==> r == Colors[i]
  {
    Colors[i % |Colors|]
  }

  /** The colours repeat every four slices. */
  lemma SliceColorCycles(i: nat)
    ensures SliceColor(i + |Colors|) == SliceColor(i)
  {
    assert (i + |Colors|) % |Colors| == i % |Colors|;
  }

  /** No two slices of the chart share a colour. */
  lemma SliceColorsDistinct(totals: Expenses, i: nat, j: nat)
    requires i < j < |ChartData(totals)|
    ensures SliceColor(i) != SliceColor(j)
  {
  }

  /** The colour follows the slice's position, not its category: with no food spending,
      accommodation takes the colour food has otherwise. */
  lemma ColorFollowsPosition(totals: Expenses)
    requires totals.food <= 0 && totals.accommodation > 0
    ensures |ChartData(totals)| > 0
    ensures ChartData(totals)[0] == Slice(Accommodation, totals.accommodation)
    ensures SliceColor(0) == "#FFC107"
  {
    var r := ChartData(totals);
    assert Amount(totals, Accommodation) == totals.accommodation;
    assert Slice(Accommodation, totals.accommodation) in r;
    var k :| 0 <= k < |r| && r[k] == Slice(Accommodation, totals.accommodation);
    assert CategoryIndex(r[0].category) <= CategoryIndex(r[k].category);
    assert r[0].value == Amount(totals, r[0].category) > 0;
    assert r[0].category != Food;
  }

  /** Over the whole task list, a category is drawn exactly when its sum over the tasks is positive. */
  lemma ChartOfTasks(ts: seq<Task>, c: Category)
    ensures SumCategory(ts, c) > 0 <==> Slice(c, SumCategory(ts, c)) in ChartData(CategoryTotals(ts))
  {
    assert Amount(CategoryTotals(ts), c) == SumCategory(ts, c);
  }
}
