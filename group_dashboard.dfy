/**
 * The group overview: the number of students over all groups, the school
 * average weighted by group size, and the groups that have students.
 */
module GroupDashboard {
  import opened Students
  import Arith
  import Seqs

  /** `groups.reduce((sum, group) => sum + group.studentCount, 0)`. */
  function TotalStudents(groups: seq<Group>): nat {
    if groups == [] then 0 else groups[0].studentCount + TotalStudents(groups[1..])
  }

  /** `groups.reduce((sum, group) => sum + group.averageProgress * group.studentCount, 0)`. */
  function WeightedProgress(groups: seq<Group>): nat {
    if groups == [] then 0 else groups[0].averageProgress * groups[0].studentCount + WeightedProgress(groups[1..])
  }

  predicate AveragesInRange(groups: seq<Group>) {
    forall i :: 0 <= i < |groups| ==> groups[i].averageProgress <= 100
  }

  /** The weighted sum is at most 100 per student when every group average is at most 100. */
  lemma {:induction false} WeightedBound(groups: seq<Group>)
    requires AveragesInRange(groups)
    ensures WeightedProgress(groups) <= 100 * TotalStudents(groups)
  {
    if groups != [] {
      assert AveragesInRange(groups[1..]) by {
        forall i | 0 <= i < |groups[1..]| ensures groups[1..][i].averageProgress <= 100 {
          assert groups[1..][i] == groups[i + 1];
        }
      }
      WeightedBound(groups[1..]);
      Arith.MulMono(groups[0].studentCount, groups[0].averageProgress, 100);
    }
  }

  /** Without students every weight is zero, so the weighted sum is zero too. */
  lemma {:induction false} NoStudentsNoWeight(groups: seq<Group>)
    requires TotalStudents(groups) == 0
    ensures WeightedProgress(groups) == 0
  {
    if groups != [] {
      NoStudentsNoWeight(groups[1..]);
    }
  }

  /**
   * `overallAverage`: 0 without groups; otherwise the rounded weighted mean,
   * where the `|| 0` turns the 0 / 0 of groups without students into 0.
   */
  function OverallAverage(groups: seq<Group>): (r: nat)
    ensures groups == [] ==> r == 0
    ensures TotalStudents(groups) == 0 ==> r == 0
    ensures TotalStudents(groups) > 0 ==> r == Arith.RoundDiv(WeightedProgress(groups), TotalStudents(groups))
    ensures AveragesInRange(groups) ==> r <= 100
  {
    var total := TotalStudents(groups);
    if |groups| > 0 && total > 0 then
      var r := Arith.RoundDiv(WeightedProgress(groups), total);
      assert AveragesInRange(groups) ==> r <= 100 by {
        if AveragesInRange(groups) {
          WeightedBound(groups);
          Arith.RoundDivBounded(WeightedProgress(groups), total, 100);
        }
      }
      r
    else 0
  }

  function HasStudents(): Group -> bool {
    (g: Group) => g.studentCount > 0
  }

  /** `groups.filter(group => group.studentCount > 0)`. */
  function GroupsWithStudents(groups: seq<Group>): (r: seq<Group>)
    ensures Seqs.IsSubseq(r, groups) && |r| <= |groups|
    ensures forall g :: g in r <==> g in groups && g.studentCount > 0
  {
    Seqs.FilterIsSubseq(groups, HasStudents());
    forall g ensures g in Seqs.Filter(groups, HasStudents()) <==> g in groups && g.studentCount > 0 {
      Seqs.FilterMember(groups, HasStudents(), g);
    }
    Seqs.Filter(groups, HasStudents())
  }

  /** The "No hay grupos activos" message. */
  predicate ShowNoActiveGroups(groups: seq<Group>) {
    |GroupsWithStudents(groups)| == 0
  }

  /** The message shows exactly when no group has students, that is, when the student total is zero. */
  lemma {:induction false} NoActiveGroupsIffNoStudents(groups: seq<Group>)
    ensures ShowNoActiveGroups(groups) <==> forall i :: 0 <= i < |groups| ==> groups[i].studentCount == 0
    ensures ShowNoActiveGroups(groups) <==> TotalStudents(groups) == 0
  {
    if ShowNoActiveGroups(groups) {
      forall i | 0 <= i < |groups| ensures groups[i].studentCount == 0 {
        assert groups[i] in groups;
      }
    } else {
      var g := GroupsWithStudents(groups)[0];
      assert g in GroupsWithStudents(groups);
    }
    TotalZeroIffAllEmpty(groups);
  }

  lemma {:induction false} TotalZeroIffAllEmpty(groups: seq<Group>)
    ensures TotalStudents(groups) == 0 <==> forall i :: 0 <= i < |groups| ==> groups[i].studentCount == 0
  {
    if groups != [] {
      TotalZeroIffAllEmpty(groups[1..]);
      assert forall i :: 1 <= i < |groups| ==> groups[i] == groups[1..][i - 1];
    }
  }

  /** When every count matches its roster, the total is the number of rostered students. */
  lemma {:induction false} TotalCountsRosters(groups: seq<Group>)
    requires forall i :: 0 <= i < |groups| ==> groups[i].studentCount == |groups[i].students|
    ensures TotalStudents(groups) == RosterSizes(groups)
  {
    if groups != [] {
      TotalCountsRosters(groups[1..]);
    }
  }

  function RosterSizes(groups: seq<Group>): nat {
    if groups == [] then 0 else |groups[0].students| + RosterSizes(groups[1..])
  }

  /**
   * With the seed: nine students in three active groups of five, and the
   * weighted mean (77 * 5 + 82 * 2 + 81 * 2) / 9 = 711 / 9 = 79.
   */
  lemma SeedOverview()
    ensures TotalStudents(MockGroups) == 9
    ensures WeightedProgress(MockGroups) == 711
    ensures OverallAverage(MockGroups) == 79
    ensures |GroupsWithStudents(MockGroups)| == 3
  {
    var g := MockGroups;
    var t := g[3..];
    assert |t| == 2 && t[0].studentCount == 0 && t[1].studentCount == 0;
    TotalZeroIffAllEmpty(t);
    NoStudentsNoWeight(t);
    assert g[1..][0] == g[1] && g[1..][1..] == g[2..];
    assert g[2..][0] == g[2] && g[2..][1..] == t;
    assert TotalStudents(g[2..]) == 2 && WeightedProgress(g[2..]) == 162;
    assert TotalStudents(g[1..]) == 4 && WeightedProgress(g[1..]) == 326;
    Arith.RoundDivExact(79, 9);
    assert g == g[..3] + g[3..];
    Seqs.FilterAppend(g[..3], g[3..], HasStudents());
    Seqs.FilterAll(g[..3], HasStudents());
    Seqs.FilterNone(g[3..], HasStudents());
  }
}
