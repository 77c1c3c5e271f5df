/** The teacher dashboard's student list (src/pages/Dashboard.tsx): the
    roster filtered by a search box over name and course and by a risk
    level selector. */
module Dashboard {
  import opened Seqs
  import opened Strings
  import opened Types

  /** The risk selector: 'All' or one level. */
  datatype RiskFilter = All | Only(level: RiskLevel)

  /** The search test: the lower-cased query occurs in the lower-cased name
      or the lower-cased course. */
  predicate MatchesSearch(s: Student, query: string)
  {
    Contains(ToLower(s.name), ToLower(query)) || Contains(ToLower(s.course), ToLower(query))
  }

  predicate MatchesRisk(s: Student, filter: RiskFilter)
  {
    filter.All? || s.riskLevel == filter.level
  }

  predicate Shown(s: Student, query: string, filter: RiskFilter)
  {
    MatchesSearch(s, query) && MatchesRisk(s, filter)
  }

  /** `filteredStudents`: the students the list shows, in roster order. */
  function FilteredStudents(students: seq<Student>, query: string, filter: RiskFilter): (r: seq<Student>)
    ensures IsSubsequence(r, students)
    ensures forall s :: s in r <==> s in students && Shown(s, query, filter)
  {
    var p := (s: Student) => Shown(s, query, filter);
    FilterMembership(students, p);
    FilterIsSubsequence(students, p);
    Filter(students, p)
  }

  /** An empty search with 'All' shows the whole roster, unchanged. */
  lemma EmptySearchShowsAll(students: seq<Student>)
    ensures FilteredStudents(students, "", All) == students
  {
    forall s | s in students ensures Shown(s, "", All) {
      ContainsEmpty(ToLower(s.name));
    }
    FilterKeepsAll(students, (s: Student) => Shown(s, "", All));
  }

  /** An empty search with a level selected shows exactly that level's
      students, in roster order. */
  lemma {:induction false} EmptySearchShowsLevel(students: seq<Student>, level: RiskLevel)
    ensures FilteredStudents(students, "", Only(level)) == AtLevel(students, level)
  {
    if students != [] {
      ContainsEmpty(ToLower(students[0].name));
      EmptySearchShowsLevel(students[1..], level);
    }
  }

  /** With a level selected, every student shown is at that level. */
  lemma OnlyLevelShown(students: seq<Student>, query: string, level: RiskLevel)
    ensures forall s :: s in FilteredStudents(students, query, Only(level)) ==> s.riskLevel == level
  {
  }

  /** The search ignores case: a query and its lower-cased form show the
      same students. */
  lemma {:induction false} SearchIgnoresCase(students: seq<Student>, query: string, filter: RiskFilter)
    ensures FilteredStudents(students, ToLower(query), filter) == FilteredStudents(students, query, filter)
  {
    ToLowerIdempotent(query);
    if students != [] {
      SearchIgnoresCase(students[1..], query, filter);
    }
  }

  /** A student whose name or course contains the query, letter for
      letter, is shown under 'All'. */
  lemma SubstringIsShown(students: seq<Student>, s: Student, query: string)
    requires s in students
    requires Contains(s.name, query) || Contains(s.course, query)
    ensures s in FilteredStudents(students, query, All)
  {
    if Contains(s.name, query) {
      ContainsLowered(s.name, query);
    } else {
      ContainsLowered(s.course, query);
    }
  }

  /** Selecting a level narrows the 'All' list to that level: the two
      filters compose. */
  lemma {:induction false} LevelNarrowsAll(students: seq<Student>, query: string, level: RiskLevel)
    ensures FilteredStudents(students, query, Only(level)) == AtLevel(FilteredStudents(students, query, All), level)
  {
    if students != [] {
      LevelNarrowsAll(students[1..], query, level);
    }
  }
}
