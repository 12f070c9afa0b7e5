/**
 * The student list of a group: the search box, the learning-style and
 * progress-band selectors (AND-combined, each with an `"all"` sentinel), and
 * the sort selector applied to the filtered list.
 */
module StudentDashboard {
  import opened Students
  import opened Text
  import Seqs

  /** The selector value meaning "no restriction". */
  const All := "all"

  /** `student.name.toLowerCase().includes(searchTerm.toLowerCase())`. */
  predicate MatchesSearch(searchTerm: string, s: Student) {
    Seqs.Contains(ToLower(s.name), ToLower(searchTerm))
  }

  /** `filterStyle === 'all' || student.learningStyle === filterStyle`. */
  predicate MatchesStyle(filterStyle: string, s: Student) {
    filterStyle == All || s.learningStyle == filterStyle
  }

  /** The progress selector: `all`, `high` (80 and above), `medium` (60 to 79), `low` (below 60). */
  predicate MatchesProgress(filterProgress: string, s: Student) {
    var p := s.progressPercentage;
    || filterProgress == All
    || (filterProgress == "high" && p >= 80)
    || (filterProgress == "medium" && p >= 60 && p < 80)
    || (filterProgress == "low" && p < 60)
  }

  function Keep(searchTerm: string, filterStyle: string, filterProgress: string): Student -> bool {
    (s: Student) => MatchesSearch(searchTerm, s) && MatchesStyle(filterStyle, s) && MatchesProgress(filterProgress, s)
  }

  /** `group.students.filter(...)`: the students passing all three tests, in roster order. */
  function FilterStudents(group: Group, searchTerm: string, filterStyle: string, filterProgress: string): (r: seq<Student>)
    ensures Seqs.IsSubseq(r, group.students)
    ensures forall i :: 0 <= i < |r| ==>
              MatchesSearch(searchTerm, r[i]) && MatchesStyle(filterStyle, r[i]) && MatchesProgress(filterProgress, r[i])
  {
    var keep := Keep(searchTerm, filterStyle, filterProgress);
    Seqs.FilterIsSubseq(group.students, keep);
    Seqs.Filter(group.students, keep)
  }

  /** A roster student is listed exactly when it passes all three tests; an omitted one fails one of them. */
  lemma FilterStudentsMember(group: Group, searchTerm: string, filterStyle: string, filterProgress: string, s: Student)
    ensures s in FilterStudents(group, searchTerm, filterStyle, filterProgress)
        <==> s in group.students
             && MatchesSearch(searchTerm, s) && MatchesStyle(filterStyle, s) && MatchesProgress(filterProgress, s)
  {
    Seqs.FilterMember(group.students, Keep(searchTerm, filterStyle, filterProgress), s);
  }

  /** An empty search term matches every student. */
  lemma EmptySearchMatchesAll(s: Student)
    ensures MatchesSearch("", s)
  {
    assert ToLower("") == "";
    Seqs.ContainsEmpty(ToLower(s.name));
  }

  /**
   * The search ignores case: lowering the term or the name first changes
   * nothing, and the test is a substring test on the lowered strings.
   */
  lemma SearchIgnoresCase(searchTerm: string, s: Student)
    ensures MatchesSearch(ToLower(searchTerm), s) == MatchesSearch(searchTerm, s)
    ensures MatchesSearch(searchTerm, s.(name := ToLower(s.name))) == MatchesSearch(searchTerm, s)
    ensures MatchesSearch(searchTerm, s)
        <==> exists i: nat :: Seqs.OccursAt(ToLower(s.name), ToLower(searchTerm), i)
  {
    ToLowerIdempotent(searchTerm);
    ToLowerIdempotent(s.name);
    Seqs.ContainsSpec(ToLower(s.name), ToLower(searchTerm));
  }

  /** The `"all"` value of either selector lets every student through. */
  lemma AllBypasses(s: Student)
    ensures MatchesStyle(All, s) && MatchesProgress(All, s)
  {
  }

  /** A progress value outside the four choices matches nobody. */
  lemma UnknownBandMatchesNobody(filterProgress: string, s: Student)
    requires filterProgress !in {All, "high", "medium", "low"}
    ensures !MatchesProgress(filterProgress, s)
  {
  }

  /** The three bands, as the selector names them. */
  datatype Band = High | Medium | Low

  function BandName(b: Band): string {
    match b
    case High => "high"
    case Medium => "medium"
    case Low => "low"
  }

  /** The band a progress value belongs to. */
  function BandOf(p: nat): Band {
    if p >= 80 then High else if p >= 60 then Medium else Low
  }

  /** The bands partition the progress values: each student matches exactly its own band. */
  lemma BandsPartition(s: Student, b: Band)
    ensures MatchesProgress(BandName(b), s) <==> b == BandOf(s.progressPercentage)
  {
  }

  // ----- sorting -----

  datatype SortKey = ProgressDesc | ProgressAsc | ByName

  /** The `switch (sortBy)`: `'name'` and every unrecognised value sort by name. */
  function ParseSortKey(sortBy: string): (k: SortKey)
    ensures k == ProgressDesc <==> sortBy == "progress-desc"
    ensures k == ProgressAsc <==> sortBy == "progress-asc"
    ensures k == ByName <==> sortBy != "progress-desc" && sortBy != "progress-asc"
  {
    if sortBy == "progress-desc" then ProgressDesc
    else if sortBy == "progress-asc" then ProgressAsc
    else ByName
  }

  /** The comparator returns a value `<= 0`: `a` may come before `b`. */
  predicate Le(key: SortKey, a: Student, b: Student) {
    match key
    case ProgressDesc => b.progressPercentage - a.progressPercentage <= 0
    case ProgressAsc => a.progressPercentage - b.progressPercentage <= 0
    case ByName => NameLe(a.name, b.name)
  }

  lemma LeTotal(key: SortKey, a: Student, b: Student)
    ensures Le(key, a, b) || Le(key, b, a)
  {
    if key == ByName {
      NameLeTotal(a.name, b.name);
    }
  }

  lemma LeTransitive(key: SortKey, a: Student, b: Student, c: Student)
    requires Le(key, a, b) && Le(key, b, c)
    ensures Le(key, a, c)
  {
    if key == ByName {
      NameLeTransitive(a.name, b.name, c.name);
    }
  }

  predicate Sorted(key: SortKey, s: seq<Student>) {
    forall i, j :: 0 <= i < j < |s| ==> Le(key, s[i], s[j])
  }

  /** Insert `x` before the first element it may precede. */
  function Insert(key: SortKey, x: Student, s: seq<Student>): (r: seq<Student>)
    ensures multiset(r) == multiset(s) + multiset{x}
  {
    if s == [] then [x]
    else if Le(key, x, s[0]) then [x] + s
    else
      assert s == [s[0]] + s[1..];
      [s[0]] + Insert(key, x, s[1..])
  }

  /** `y` may precede every element of `s`. */
  predicate LowerBound(key: SortKey, y: Student, s: seq<Student>) {
    forall j :: 0 <= j < |s| ==> Le(key, y, s[j])
  }

  lemma {:induction false} InsertLowerBound(key: SortKey, y: Student, x: Student, s: seq<Student>)
    requires LowerBound(key, y, s) && Le(key, y, x)
    ensures LowerBound(key, y, Insert(key, x, s))
  {
    if s != [] && !Le(key, x, s[0]) {
      InsertLowerBound(key, y, x, s[1..]);
    }
  }

  /** Inserting into a sorted list keeps it sorted. */
  lemma {:induction false} InsertSorted(key: SortKey, x: Student, s: seq<Student>)
    requires Sorted(key, s)
    ensures Sorted(key, Insert(key, x, s))
  {
    if s == [] {
    } else if Le(key, x, s[0]) {
      var r := [x] + s;
      forall i, j | 0 <= i < j < |r| ensures Le(key, r[i], r[j]) {
        if i == 0 && j > 1 {
          LeTransitive(key, x, s[0], s[j - 1]);
        }
      }
    } else {
      LeTotal(key, x, s[0]);
      InsertSorted(key, x, s[1..]);
      InsertLowerBound(key, s[0], x, s[1..]);
    }
  }

  /** `filteredStudents.sort(...)`: the same students, ordered by the comparator. */
  function SortStudents(key: SortKey, s: seq<Student>): (r: seq<Student>)
    ensures multiset(r) == multiset(s)
    ensures |r| == |s|
    ensures Sorted(key, r)
  {
    if s == [] then []
    else
      assert s == [s[0]] + s[1..];
      var t := SortStudents(key, s[1..]);
      InsertSorted(key, s[0], t);
      Insert(key, s[0], t)
  }

  /** The list shown: the filtered roster, sorted by the selected key. */
  function VisibleStudents(group: Group, searchTerm: string, filterStyle: string, filterProgress: string, sortBy: string): seq<Student>
  {
    SortStudents(ParseSortKey(sortBy), FilterStudents(group, searchTerm, filterStyle, filterProgress))
  }

  /**
   * The visible list is a reordering of the filtered one; `progress-desc`
   * shows non-increasing progress, `progress-asc` non-decreasing progress,
   * and any other key orders by name.
   */
  lemma VisibleStudentsSpec(group: Group, searchTerm: string, filterStyle: string, filterProgress: string, sortBy: string)
    ensures var v := VisibleStudents(group, searchTerm, filterStyle, filterProgress, sortBy);
            && multiset(v) == multiset(FilterStudents(group, searchTerm, filterStyle, filterProgress))
            && (sortBy == "progress-desc" ==>
                  forall i, j :: 0 <= i < j < |v| ==> v[i].progressPercentage >= v[j].progressPercentage)
            && (sortBy == "progress-asc" ==>
                  forall i, j :: 0 <= i < j < |v| ==> v[i].progressPercentage <= v[j].progressPercentage)
            && (sortBy != "progress-desc" && sortBy != "progress-asc" ==>
                  forall i, j :: 0 <= i < j < |v| ==> NameLe(v[i].name, v[j].name))
  {
  }

  /** Every visible student is a roster student passing all three tests. */
  lemma VisibleStudentsFiltered(group: Group, searchTerm: string, filterStyle: string, filterProgress: string, sortBy: string, s: Student)
    ensures s in VisibleStudents(group, searchTerm, filterStyle, filterProgress, sortBy)
        <==> s in group.students
             && MatchesSearch(searchTerm, s) && MatchesStyle(filterStyle, s) && MatchesProgress(filterProgress, s)
  {
    var f := FilterStudents(group, searchTerm, filterStyle, filterProgress);
    var v := VisibleStudents(group, searchTerm, filterStyle, filterProgress, sortBy);
    assert s in v <==> s in multiset(v);
    assert s in f <==> s in multiset(f);
    FilterStudentsMember(group, searchTerm, filterStyle, filterProgress, s);
  }
}
