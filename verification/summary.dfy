/**
 * The monthly overview (src/Home.js): the month's totals from the per-category
 * aggregate rows, the balance, the expenditure rows sorted in place for the pie
 * chart, the pie's labels and values, and the total-assets figure.
 */
module Summary {
  import opened Common

  /** One aggregate row: the category's embedded name (may be missing) and `sum` (may be null). */
  datatype CategorySum = CategorySum(categoryName: Option<string>, sum: Option<int>)

  /** `item.sum || 0` */
  function Contribution(r: CategorySum): (c: int)
    ensures r.sum.None? ==> c == 0
    ensures r.sum.Some? ==> c == r.sum.value
  {
    if r.sum.Some? then r.sum.value else 0
  }

  /** `rows.reduce((acc, item) => acc + (item.sum || 0), 0)`, folded from the left. */
  function Total(rows: seq<CategorySum>): (t: int)
    ensures rows == [] ==> t == 0
    ensures |rows| == 1 ==> t == Contribution(rows[0])
    ensures (forall i :: 0 <= i < |rows| ==> Contribution(rows[i]) >= 0) ==> t >= 0
  {
    if rows == [] then 0 else Total(rows[..|rows| - 1]) + Contribution(rows[|rows| - 1])
  }

  lemma {:induction false} TotalAppend(a: seq<CategorySum>, b: seq<CategorySum>)
    ensures Total(a + b) == Total(a) + Total(b)
    decreases |b|
  {
    if b == [] {
      assert a + b == a;
    } else {
      var b' := b[..|b| - 1];
      assert (a + b)[..|a + b| - 1] == a + b';
      TotalAppend(a, b');
    }
  }

  /** The total does not depend on the order of the rows. */
  lemma {:induction false} TotalPermutation(a: seq<CategorySum>, b: seq<CategorySum>)
    requires multiset(a) == multiset(b)
    ensures Total(a) == Total(b)
    decreases |a|
  {
    if a != [] {
      var x := a[|a| - 1];
      assert x in multiset(b);
      var k :| 0 <= k < |b| && b[k] == x;
      var a', b' := a[..|a| - 1], b[..k] + b[k + 1..];
      assert a == a' + [x];
      assert b == b[..k] + [x] + b[k + 1..];
      assert multiset(b) == multiset(b[..k]) + multiset([x]) + multiset(b[k + 1..]);
      assert multiset(b') == multiset(b[..k]) + multiset(b[k + 1..]);
      assert multiset(b') == multiset(b) - multiset{x};
      assert multiset(a') == multiset(a) - multiset{x};
      TotalPermutation(a', b');
      TotalAppend(b[..k] + [x], b[k + 1..]);
      TotalAppend(b[..k], [x]);
      TotalAppend(b[..k], b[k + 1..]);
    } else {
      assert b == [];
    }
  }

  /** The label of a pie slice: the category name, or 未分類 when it is missing or empty. */
  function Label(r: CategorySum): (name: string)
    ensures name != ""
    ensures r.categoryName.Some? && r.categoryName.value != "" ==> name == r.categoryName.value
    ensures r.categoryName.None? || r.categoryName.value == "" ==> name == "未分類"
  {
    if r.categoryName.Some? && r.categoryName.value != "" then r.categoryName.value else "未分類"
  }

  /** `rows.map(item => <label>)` */
  function Labels(rows: seq<CategorySum>): (labels: seq<string>)
    ensures |labels| == |rows|
    ensures forall i :: 0 <= i < |rows| ==> labels[i] == Label(rows[i])
  {
    if rows == [] then [] else [Label(rows[0])] + Labels(rows[1..])
  }

  /** `rows.map(item => item.sum)` */
  function Sums(rows: seq<CategorySum>): (values: seq<Option<int>>)
    ensures |values| == |rows|
    ensures forall i :: 0 <= i < |rows| ==> values[i] == rows[i].sum
  {
    if rows == [] then [] else [rows[0].sum] + Sums(rows[1..])
  }

  /** The comparator `(a, b) => b.sum - a.sum` reads a null sum as 0. */
  predicate SortedBySumDescending(s: seq<CategorySum>) {
    forall i, j :: 0 <= i < j < |s| ==> Contribution(s[i]) >= Contribution(s[j])
  }

  method Swap(a: array<CategorySum>, i: nat, j: nat)
    requires i < a.Length && j < a.Length
    modifies a
    ensures a[i] == old(a[j]) && a[j] == old(a[i])
    ensures forall k :: 0 <= k < a.Length && k != i && k != j ==> a[k] == old(a[k])
    ensures multiset(a[..]) == multiset(old(a[..]))
  {
    a[i], a[j] := a[j], a[i];
  }

  /**
   * `expenditureEachCategory.data.sort((a, b) => b.sum - a.sum)`: reorders the rows
   * in place, largest sum first.
   */
  method SortBySumDescending(a: array<CategorySum>)
    modifies a
    ensures SortedBySumDescending(a[..])
    ensures multiset(a[..]) == multiset(old(a[..]))
  {
    var i := 0;
    while i < a.Length
      invariant 0 <= i <= a.Length
      invariant SortedBySumDescending(a[..i])
      invariant multiset(a[..]) == multiset(old(a[..]))
    {
      InsertDescending(a, i);
      i := i + 1;
    }
  }

  /** One insertion step: row i moves left past every row with a strictly smaller sum. */
  method InsertDescending(a: array<CategorySum>, i: nat)
    requires i < a.Length && SortedBySumDescending(a[..i])
    modifies a
    ensures SortedBySumDescending(a[..i + 1])
    ensures multiset(a[..i + 1]) == multiset(old(a[..i + 1]))
    ensures a[i + 1..] == old(a[i + 1..])
    ensures multiset(a[..]) == multiset(old(a[..]))
    ensures exists j :: 0 <= j <= i && Inserted(old(a[..]), a[..], i, j)
  {
    ghost var s0 := a[..];
    var j := i;
    while j > 0 && Contribution(a[j - 1]) < Contribution(a[j])
      invariant 0 <= j <= i
      invariant Inserting(a[..], i, j)
      invariant Moved(s0, a[..], i, j)
      invariant a[i + 1..] == old(a[i + 1..])
      invariant multiset(a[..]) == multiset(old(a[..]))
    {
      StepLeft(a, i, j, s0);
      j := j - 1;
    }
    InsertingDone(a[..], i, j);
    SameTailSamePrefix(a[..], old(a[..]), i + 1);
    if j > 0 {
      PrefixAt(s0, a[..], i, j);
    }
    assert Inserted(s0, a[..], i, j);
  }

  /**
   * Mid-insertion: the moving row sits at j, the rows up to i other than it are in
   * non-increasing order, and everything it has passed has a strictly smaller sum.
   */
  predicate Inserting(s: seq<CategorySum>, i: nat, j: nat)
    requires j <= i < |s|
  {
    && (forall p, q :: 0 <= p < q <= i && p != j && q != j ==> Contribution(s[p]) >= Contribution(s[q]))
    && (forall q :: j < q <= i ==> Contribution(s[j]) > Contribution(s[q]))
  }

  /**
   * Row i of `s` has moved to position j of `t`: the rows before j stay, the rows from
   * j to i - 1 are one place further right, and each of them has a strictly smaller sum.
   */
  ghost predicate Moved(s: seq<CategorySum>, t: seq<CategorySum>, i: nat, j: nat)
    requires j <= i < |s| == |t|
  {
    && t[..i + 1] == s[..j] + [s[i]] + s[j..i]
    && (forall q :: j <= q < i ==> Contribution(s[q]) < Contribution(s[i]))
  }

  /**
   * The pass is over: row i of `s` moved to j of `t` and stopped in front of a row
   * whose sum is not smaller (or at the start). Rows with equal sums keep their order.
   */
  ghost predicate Inserted(s: seq<CategorySum>, t: seq<CategorySum>, i: nat, j: nat)
    requires j <= i < |s| == |t|
  {
    Moved(s, t, i, j) && (j == 0 || Contribution(s[j - 1]) >= Contribution(s[i]))
  }

  /** Reading the rows either side of the moving row off the prefix picture. */
  lemma PrefixAt(s0: seq<CategorySum>, t: seq<CategorySum>, i: nat, j: nat)
    requires 0 < j <= i < |s0| == |t| && t[..i + 1] == s0[..j] + [s0[i]] + s0[j..i]
    ensures t[j - 1] == s0[j - 1] && t[j] == s0[i]
  {
    assert t[j - 1] == t[..i + 1][j - 1];
    assert t[j] == t[..i + 1][j];
  }

  /** Swapping the moving row with its left neighbour moves the picture one place left. */
  lemma ShiftLeft(s0: seq<CategorySum>, t: seq<CategorySum>, u: seq<CategorySum>, i: nat, j: nat)
    requires 0 < j <= i < |s0| == |t| && t[..i + 1] == s0[..j] + [s0[i]] + s0[j..i]
    requires u == t[j - 1 := t[j]][j := t[j - 1]]
    ensures u[..i + 1] == s0[..j - 1] + [s0[i]] + s0[j - 1..i]
  {
    PrefixAt(s0, t, i, j);
    var w := s0[..j - 1] + [s0[i]] + s0[j - 1..i];
    assert |u[..i + 1]| == |w|;
    forall k | 0 <= k <= i
      ensures u[k] == w[k]
    {
      if k < j - 1 {
        assert u[k] == t[..i + 1][k];
      } else if k > j {
        assert u[k] == t[..i + 1][k];
      }
    }
  }

  /** The moving row at j changes places with its smaller left neighbour. */
  method StepLeft(a: array<CategorySum>, i: nat, j: nat, ghost s0: seq<CategorySum>)
    requires 0 < j <= i < a.Length == |s0| && Inserting(a[..], i, j) && Moved(s0, a[..], i, j)
    requires Contribution(a[j - 1]) < Contribution(a[j])
    modifies a
    ensures a[..] == old(a[..])[j - 1 := old(a[j])][j := old(a[j - 1])]
    ensures Inserting(a[..], i, j - 1) && Moved(s0, a[..], i, j - 1)
    ensures a[i + 1..] == old(a[i + 1..])
    ensures multiset(a[..]) == multiset(old(a[..]))
  {
    ghost var before := a[..];
    PrefixAt(s0, before, i, j);
    Swap(a, j - 1, j);
    assert a[..] == before[j - 1 := before[j]][j := before[j - 1]];
    InsertingStep(before, i, j);
    ShiftLeft(s0, before, a[..], i, j);
    assert a[i + 1..] == before[i + 1..];
  }

  lemma InsertingStep(s: seq<CategorySum>, i: nat, j: nat)
    requires 0 < j <= i < |s| && Inserting(s, i, j) && Contribution(s[j - 1]) < Contribution(s[j])
    ensures Inserting(s[j - 1 := s[j]][j := s[j - 1]], i, j - 1)
  {
  }

  lemma InsertingDone(s: seq<CategorySum>, i: nat, j: nat)
    requires j <= i < |s| && Inserting(s, i, j) && (j == 0 || Contribution(s[j - 1]) >= Contribution(s[j]))
    ensures SortedBySumDescending(s[..i + 1])
  {
  }

  /** Two reorderings of each other that agree after position n also agree as multisets before it. */
  lemma SameTailSamePrefix(s: seq<CategorySum>, t: seq<CategorySum>, n: nat)
    requires n <= |s| == |t| && multiset(s) == multiset(t) && s[n..] == t[n..]
    ensures multiset(s[..n]) == multiset(t[..n])
  {
    assert s == s[..n] + s[n..];
    assert t == t[..n] + t[n..];
    assert multiset(s) == multiset(s[..n]) + multiset(s[n..]);
    assert multiset(t) == multiset(t[..n]) + multiset(t[n..]);
    forall x | x in multiset(s[..n]) + multiset(t[..n])
      ensures multiset(s[..n])[x] == multiset(t[..n])[x]
    {
      assert multiset(s)[x] == multiset(s[..n])[x] + multiset(s[n..])[x];
      assert multiset(t)[x] == multiset(t[..n])[x] + multiset(t[n..])[x];
    }
  }

  /** The figures the overview shows. */
  datatype Overview = Overview(
    totalAssets: int,
    totalIncome: int,
    totalExpenditure: int,
    balance: int,
    showPie: bool,
    labels: seq<string>,
    values: seq<Option<int>>)

  /** `totalAssets.data?.[0]?.sum ?? 0` */
  function AssetsView(rows: seq<Option<int>>): (v: int)
    ensures rows == [] ==> v == 0
    ensures rows != [] && rows[0].Some? ==> v == rows[0].value
    ensures rows != [] && rows[0].None? ==> v == 0
  {
    if rows != [] && rows[0].Some? then rows[0].value else 0
  }

  /**
   * One render of the overview. The totals are taken before the sort, which then
   * reorders the expenditure rows in place; labels and values are both read from the
   * sorted rows, so slice i is labelled with the category whose sum it shows.
   */
  method Render(assets: seq<Option<int>>, expenditure: array<CategorySum>, income: seq<CategorySum>)
    returns (view: Overview)
    modifies expenditure
    ensures multiset(expenditure[..]) == multiset(old(expenditure[..]))
    ensures SortedBySumDescending(expenditure[..])
    ensures view.totalAssets == AssetsView(assets)
    ensures view.totalExpenditure == Total(old(expenditure[..])) == Total(expenditure[..])
    ensures view.totalIncome == Total(income)
    ensures view.balance == view.totalIncome - view.totalExpenditure
    ensures view.showPie <==> expenditure.Length > 0
    ensures |view.labels| == |view.values| == expenditure.Length
    ensures forall i :: 0 <= i < expenditure.Length ==>
              view.labels[i] == Label(expenditure[i]) && view.values[i] == expenditure[i].sum
  {
    var totalExpenditure := Total(expenditure[..]);
    var totalIncome := Total(income);
    SortBySumDescending(expenditure);
    TotalPermutation(old(expenditure[..]), expenditure[..]);
    view := Overview(
      AssetsView(assets),
      totalIncome,
      totalExpenditure,
      totalIncome - totalExpenditure,
      expenditure.Length > 0,
      Labels(expenditure[..]),
      Sums(expenditure[..]));
  }
}
