/** The risk heatmap (src/components/RiskHeatmap.tsx): a copy of the
    student list sorted by risk rank, High first, and the three per-level
    counts under the grid. */
module RiskHeatmap {
  import opened Seqs
  import opened Types

  /** `riskOrder`: High 0, Medium 1, Low 2. */
  function Rank(level: RiskLevel): nat
  {
    match level
    case High => 0
    case Medium => 1
    case Low => 2
  }

  predicate SortedByRank(xs: seq<Student>)
  {
    forall i, j :: 0 <= i < j < |xs| ==> Rank(xs[i].riskLevel) <= Rank(xs[j].riskLevel)
  }

  /** The students grouped by level, each group in input order: what a
      stable sort by rank produces. */
  function Grouped(students: seq<Student>): seq<Student>
  {
    AtLevel(students, High) + AtLevel(students, Medium) + AtLevel(students, Low)
  }

  /** Inserting one more element into a sorted list after every element
      whose rank is not larger: one step of a stable insertion sort. */
  function InsertStable(sorted: seq<Student>, x: Student): seq<Student>
  {
    if sorted == [] || Rank(sorted[|sorted| - 1].riskLevel) <= Rank(x.riskLevel) then sorted + [x]
    else InsertStable(sorted[..|sorted| - 1], x) + [sorted[|sorted| - 1]]
  }

  /** `[...students].sort((a, b) => riskOrder[a] - riskOrder[b])`, as the
      stable sort JavaScript requires: each element in turn is inserted
      after the ones before it of equal or lower rank. */
  function SortByRisk(students: seq<Student>): seq<Student>
  {
    if students == [] then []
    else InsertStable(SortByRisk(students[..|students| - 1]), students[|students| - 1])
  }

  /** Inserting `x` into `a + b`, where `x` may follow everything in `a`
      and must precede everything in `b`, places it between them. */
  lemma {:induction false} InsertBetween(a: seq<Student>, b: seq<Student>, x: Student)
    requires a == [] || Rank(a[|a| - 1].riskLevel) <= Rank(x.riskLevel)
    requires forall y :: y in b ==> Rank(x.riskLevel) < Rank(y.riskLevel)
    ensures InsertStable(a + b, x) == a + [x] + b
    decreases |b|
  {
    if b == [] {
      assert a + b == a;
    } else {
      var front, last := b[..|b| - 1], b[|b| - 1];
      assert b == front + [last];
      assert a + b == (a + front) + [last];
      assert last in b;
      InsertBetween(a, front, x);
      assert a + [x] + b == (a + [x] + front) + [last];
    }
  }

  /** Appending a student to the input appends it to its own level's group
      and leaves the other groups alone. */
  lemma AtLevelSnoc(xs: seq<Student>, x: Student, level: RiskLevel)
    ensures AtLevel(xs + [x], level) == AtLevel(xs, level) + (if x.riskLevel == level then [x] else [])
  {
    FilterConcat(xs, [x], (s: Student) => s.riskLevel == level);
    assert [x][1..] == [];
  }

  /** Every element of `xs` is at `level`. */
  predicate AllAt(xs: seq<Student>, level: RiskLevel)
  {
    forall y :: y in xs ==> y.riskLevel == level
  }

  // Inserting into three groups sorted High, Medium, Low puts the new
  // student at the end of its own group.

  lemma InsertHigh(h: seq<Student>, m: seq<Student>, l: seq<Student>, x: Student)
    requires AllAt(h, High) && AllAt(m, Medium) && AllAt(l, Low) && x.riskLevel == High
    ensures InsertStable(h + m + l, x) == (h + [x]) + m + l
  {
    if h != [] { assert h[|h| - 1] in h; }
    assert h + m + l == h + (m + l);
    InsertBetween(h, m + l, x);
    assert h + [x] + (m + l) == (h + [x]) + m + l;
  }

  lemma InsertMedium(h: seq<Student>, m: seq<Student>, l: seq<Student>, x: Student)
    requires AllAt(h, High) && AllAt(m, Medium) && AllAt(l, Low) && x.riskLevel == Medium
    ensures InsertStable(h + m + l, x) == h + (m + [x]) + l
  {
    var a := h + m;
    if m != [] {
      assert a[|a| - 1] == m[|m| - 1] && m[|m| - 1] in m;
    } else if h != [] {
      assert a[|a| - 1] == h[|h| - 1] && h[|h| - 1] in h;
    }
    InsertBetween(a, l, x);
  }

  lemma InsertLow(h: seq<Student>, m: seq<Student>, l: seq<Student>, x: Student)
    requires x.riskLevel == Low
    ensures InsertStable(h + m + l, x) == h + m + (l + [x])
  {
    var a := h + m + l;
    if a != [] { assert Rank(a[|a| - 1].riskLevel) <= 2; }
  }

  /** The sort is stable: it yields the High students, then the Medium,
      then the Low, each group in input order. */
  lemma {:induction false} SortIsGrouped(students: seq<Student>)
    ensures SortByRisk(students) == Grouped(students)
  {
    if students != [] {
      var init := students[..|students| - 1];
      var x := students[|students| - 1];
      assert students == init + [x];
      SortIsGrouped(init);
      var h, m, l := AtLevel(init, High), AtLevel(init, Medium), AtLevel(init, Low);
      assert SortByRisk(students) == InsertStable(h + m + l, x);
      AtLevelSnoc(init, x, High);
      AtLevelSnoc(init, x, Medium);
      AtLevelSnoc(init, x, Low);
      var h', m', l' := AtLevel(students, High), AtLevel(students, Medium), AtLevel(students, Low);
      match x.riskLevel
      case High =>
        InsertHigh(h, m, l, x);
        assert h' == h + [x] && m' == m && l' == l;
      case Medium =>
        InsertMedium(h, m, l, x);
        assert h' == h && m' == m + [x] && l' == l;
      case Low =>
        InsertLow(h, m, l, x);
        assert h' == h && m' == m && l' == l + [x];
    }
  }

  /** The grouped order is sorted by rank. */
  lemma GroupedIsSorted(students: seq<Student>)
    ensures SortedByRank(Grouped(students))
  {
    var h, m, l := AtLevel(students, High), AtLevel(students, Medium), AtLevel(students, Low);
    var g := Grouped(students);
    forall i, j | 0 <= i < j < |g|
      ensures Rank(g[i].riskLevel) <= Rank(g[j].riskLevel)
    {
      assert g[i] in h || g[i] in m || g[i] in l by {
        if i < |h| { assert g[i] == h[i]; }
        else if i < |h| + |m| { assert g[i] == m[i - |h|]; }
        else { assert g[i] == l[i - |h| - |m|]; }
      }
      if j < |h| { assert g[j] == h[j]; }
      else if j < |h| + |m| { assert g[j] == m[j - |h|]; assert i >= |h| ==> g[i] == m[i - |h|]; }
      else { assert g[j] == l[j - |h| - |m|]; assert i >= |h| + |m| ==> g[i] == l[i - |h| - |m|]; }
    }
  }

  /** Grouping rearranges the students and loses none. */
  lemma {:induction false} GroupedIsPermutation(students: seq<Student>)
    ensures multiset(Grouped(students)) == multiset(students)
  {
    if students != [] {
      var init := students[..|students| - 1];
      var x := students[|students| - 1];
      assert students == init + [x];
      GroupedIsPermutation(init);
      AtLevelSnoc(init, x, High);
      AtLevelSnoc(init, x, Medium);
      AtLevelSnoc(init, x, Low);
      var h, m, l := AtLevel(init, High), AtLevel(init, Medium), AtLevel(init, Low);
      assert multiset(Grouped(students)) == multiset(h) + multiset(m) + multiset(l) + multiset{x};
    }
  }

  /** `sortedStudents`: a permutation of the input, sorted by rank, with
      equal ranks kept in input order. */
  lemma SortByRiskCorrect(students: seq<Student>)
    ensures multiset(SortByRisk(students)) == multiset(students)
    ensures SortedByRank(SortByRisk(students))
    ensures SortByRisk(students) == Grouped(students)
  {
    SortIsGrouped(students);
    GroupedIsSorted(students);
    GroupedIsPermutation(students);
  }

  datatype LevelCounts = LevelCounts(high: nat, medium: nat, low: nat)

  /** The three counts under the grid. */
  function Counts(students: seq<Student>): (r: LevelCounts)
    ensures r.high + r.medium + r.low == |students|
  {
    LevelCountsPartition(students);
    LevelCounts(|AtLevel(students, High)|, |AtLevel(students, Medium)|, |AtLevel(students, Low)|)
  }

  /** The counts agree with the grid: each is the size of its group in the
      sorted list. */
  lemma CountsMatchGrid(students: seq<Student>)
    ensures var c, g := Counts(students), SortByRisk(students);
      && |g| == c.high + c.medium + c.low
      && (forall i :: 0 <= i < c.high ==> g[i].riskLevel == High)
      && (forall i :: c.high <= i < c.high + c.medium ==> g[i].riskLevel == Medium)
      && (forall i :: c.high + c.medium <= i < |g| ==> g[i].riskLevel == Low)
  {
    SortIsGrouped(students);
    var h, m, l := AtLevel(students, High), AtLevel(students, Medium), AtLevel(students, Low);
    var g := h + m + l;
    forall i | 0 <= i < |g|
      ensures i < |h| ==> g[i].riskLevel == High
      ensures |h| <= i < |h| + |m| ==> g[i].riskLevel == Medium
      ensures |h| + |m| <= i ==> g[i].riskLevel == Low
    {
      if i < |h| { assert g[i] == h[i] && h[i] in h; }
      else if i < |h| + |m| { assert g[i] == m[i - |h|] && m[i - |h|] in m; }
      else { assert g[i] == l[i - |h| - |m|] && l[i - |h| - |m|] in l; }
    }
  }
}
