/**
 * The teacher dashboard: the group list kept in its state, the roster update
 * applied when the roster editor saves, the navigation selections with the
 * order in which they decide what the main area shows, and the figures of the
 * home section.
 */
module Dashboard {
  import opened Wrappers
  import opened Students
  import Arith
  import Seqs
  import ManageStudents
  import StudentDashboard

  // ----- roster update -----

  /** `mockStudents.filter(s => studentIds.includes(s.id))`. */
  function Roster(studentIds: seq<string>): seq<Student> {
    ManageStudents.Current(studentIds)
  }

  /** Seed students are told apart by their ids. */
  lemma SeedIdsIdentify(x: Student, y: Student)
    requires x in MockStudents && y in MockStudents && x.id == y.id
    ensures x == y
  {
    SeedIdsDistinct();
    var a :| 0 <= a < |MockStudents| && MockStudents[a] == x;
    var b :| 0 <= b < |MockStudents| && MockStudents[b] == y;
    assert Ids(MockStudents)[a] == Ids(MockStudents)[b];
  }

  /**
   * The new roster follows seed order, holds exactly the seed students whose
   * id was given (unknown ids are dropped) and lists each student once, even
   * when an id is given twice.
   */
  lemma RosterSpec(studentIds: seq<string>)
    ensures Seqs.IsSubseq(Roster(studentIds), MockStudents)
    ensures forall s :: s in Roster(studentIds) <==> s in MockStudents && s.id in studentIds
    ensures Seqs.NoDups(Ids(Roster(studentIds)))
  {
    var r := Roster(studentIds);
    Seqs.FilterIsSubseq(MockStudents, ManageStudents.InIds(studentIds));
    forall s ensures s in r <==> s in MockStudents && s.id in studentIds {
      Seqs.FilterMember(MockStudents, ManageStudents.InIds(studentIds), s);
    }
    assert Seqs.NoDups(MockStudents) by {
      forall i, j | 0 <= i < j < |MockStudents| ensures MockStudents[i] != MockStudents[j] {
        SeedIdsDistinct();
        assert Ids(MockStudents)[i] != Ids(MockStudents)[j];
      }
    }
    Seqs.FilterNoDups(MockStudents, ManageStudents.InIds(studentIds));
    forall i, j | 0 <= i < j < |r| ensures Ids(r)[i] != Ids(r)[j] {
      assert r[i] in r && r[j] in r;
      if r[i].id == r[j].id {
        SeedIdsIdentify(r[i], r[j]);
      }
    }
  }

  /** Only which ids are given matters: their order and repetitions do not change the roster. */
  lemma RosterDependsOnIdSet(a: seq<string>, b: seq<string>)
    requires forall x :: x in a <==> x in b
    ensures Roster(a) == Roster(b)
  {
    Seqs.FilterCongruent(MockStudents, ManageStudents.InIds(a), ManageStudents.InIds(b));
  }

  /**
   * The group as stored after its roster is saved: the same id, name, grade
   * and colour, the new roster, its size as the count and its rounded mean
   * progress as the average.
   */
  function UpdatedGroup(g: Group, studentIds: seq<string>): (r: Group)
    ensures r.id == g.id && r.name == g.name && r.grade == g.grade && r.color == g.color
    ensures r.students == Roster(studentIds)
    ensures r.studentCount == |r.students|
    ensures r.students == [] ==> r.averageProgress == 0
    ensures r.students != [] ==> r.averageProgress == Arith.RoundDiv(SumProgress(r.students), |r.students|)
    ensures r.averageProgress <= 100
  {
    var students := Roster(studentIds);
    assert forall i :: 0 <= i < |students| ==> students[i].progressPercentage <= 100 by {
      SeedStudentsInRange();
      forall i | 0 <= i < |students| ensures students[i].progressPercentage <= 100 {
        Seqs.FilterMember(MockStudents, ManageStudents.InIds(studentIds), students[i]);
        var k :| 0 <= k < |MockStudents| && MockStudents[k] == students[i];
        assert InRange(MockStudents[k]);
      }
    }
    g.(students := students, studentCount := |students|, averageProgress := AverageProgress(students))
  }

  /** `handleUpdateGroup`: the group with the given id is rebuilt; every other group is kept as it was. */
  function UpdateGroups(groups: seq<Group>, groupId: string, studentIds: seq<string>): (r: seq<Group>)
    ensures |r| == |groups|
    ensures forall i :: 0 <= i < |r| ==> r[i].id == groups[i].id
    ensures forall i :: 0 <= i < |r| && groups[i].id != groupId ==> r[i] == groups[i]
    ensures forall i :: 0 <= i < |r| && groups[i].id == groupId ==> r[i] == UpdatedGroup(groups[i], studentIds)
  {
    seq(|groups|, i requires 0 <= i < |groups| =>
      if groups[i].id == groupId then UpdatedGroup(groups[i], studentIds) else groups[i])
  }

  /** Saving the same roster twice stores the same groups as saving it once. */
  lemma UpdateGroupsIdempotent(groups: seq<Group>, groupId: string, studentIds: seq<string>)
    ensures UpdateGroups(UpdateGroups(groups, groupId, studentIds), groupId, studentIds)
         == UpdateGroups(groups, groupId, studentIds)
  {
  }

  /** An id that names no group leaves the list unchanged. */
  lemma UpdateUnknownGroup(groups: seq<Group>, groupId: string, studentIds: seq<string>)
    requires forall i :: 0 <= i < |groups| ==> groups[i].id != groupId
    ensures UpdateGroups(groups, groupId, studentIds) == groups
  {
  }

  /**
   * Opening the editor on a seed group and saving without a change stores
   * the group exactly as it was: the seed's rosters, counts and averages
   * agree with the update rule.
   */
  lemma SaveUnchangedSeedGroup(k: nat)
    requires k < |MockGroups|
    ensures UpdatedGroup(MockGroups[k], Ids(MockGroups[k].students)) == MockGroups[k]
  {
    if k < 3 {
      SaveUnchangedFilled(k);
    } else {
      SaveUnchangedEmpty(k);
    }
  }

  lemma SaveUnchangedFilled(k: nat)
    requires k < 3
    ensures UpdatedGroup(MockGroups[k], Ids(MockGroups[k].students)) == MockGroups[k]
  {
    var g := MockGroups[k];
    SeedGroupConsistent(k);
    SeedRosters();
    if k == 0 {
      SeedRosterIds(0, 5);
      assert MockStudents[0..5] == MockStudents[..5];
    } else if k == 1 {
      SeedRosterIds(5, 7);
    } else {
      SeedRosterIds(7, 9);
      assert MockStudents[7..9] == MockStudents[7..];
    }
    UnchangedRoster(g, Ids(g.students));
  }

  lemma SaveUnchangedEmpty(k: nat)
    requires 3 <= k < |MockGroups|
    ensures UpdatedGroup(MockGroups[k], Ids(MockGroups[k].students)) == MockGroups[k]
  {
    var g := MockGroups[k];
    assert g.students == [] && g.studentCount == 0 && g.averageProgress == 0;
    Seqs.FilterNone(MockStudents, ManageStudents.InIds([]));
    UnchangedRoster(g, []);
  }

  /** Saving a group's own roster leaves the whole list as it was when group ids are distinct. */
  lemma UpdateWithSameGroup(groups: seq<Group>, k: nat, studentIds: seq<string>)
    requires k < |groups|
    requires forall i :: 0 <= i < |groups| && groups[i].id == groups[k].id ==> i == k
    requires UpdatedGroup(groups[k], studentIds) == groups[k]
    ensures UpdateGroups(groups, groups[k].id, studentIds) == groups
  {
  }

  /** The seed groups have distinct ids. */
  lemma SeedGroupIdsDistinct()
    ensures forall i, j :: 0 <= i < |MockGroups| && 0 <= j < |MockGroups| && MockGroups[i].id == MockGroups[j].id ==> i == j
  {
    assert |MockGroups| == 5;
    assert MockGroups[0].id == "A" && MockGroups[1].id == "B" && MockGroups[2].id == "C";
    assert MockGroups[3].id == "D" && MockGroups[4].id == "E";
  }

  /** A group whose roster is what the ids select, and whose figures follow the rule, is stored unchanged. */
  lemma UnchangedRoster(g: Group, studentIds: seq<string>)
    requires Roster(studentIds) == g.students
    requires g.studentCount == |g.students| && g.averageProgress == AverageProgress(g.students)
    ensures UpdatedGroup(g, studentIds) == g
  {
  }

  /** Filtering the seed by the ids of a slice of it gives that slice back. */
  lemma SeedRosterIds(lo: nat, hi: nat)
    requires lo <= hi <= |MockStudents|
    ensures Roster(Ids(MockStudents[lo..hi])) == MockStudents[lo..hi]
  {
    SeedIdsDistinct();
    SliceIdsSelectSlice(MockStudents, lo, hi);
  }

  /** In a list with distinct ids, the ids of a slice select exactly that slice. */
  lemma SliceIdsSelectSlice(s: seq<Student>, lo: nat, hi: nat)
    requires lo <= hi <= |s|
    requires Seqs.NoDups(Ids(s))
    ensures Seqs.Filter(s, ManageStudents.InIds(Ids(s[lo..hi]))) == s[lo..hi]
  {
    var ids := Ids(s[lo..hi]);
    forall i | 0 <= i < |s| ensures ManageStudents.InIds(ids)(s[i]) <==> lo <= i < hi {
      SliceIdMember(s, lo, hi, i);
    }
    Seqs.FilterSlice(s, ManageStudents.InIds(ids), lo, hi);
  }

  lemma SliceIdMember(s: seq<Student>, lo: nat, hi: nat, i: nat)
    requires lo <= hi <= |s| && i < |s|
    requires Seqs.NoDups(Ids(s))
    ensures s[i].id in Ids(s[lo..hi]) <==> lo <= i < hi
  {
    var ids := Ids(s[lo..hi]);
    if lo <= i < hi {
      assert ids[i - lo] == s[i].id;
    } else {
      forall j | 0 <= j < |ids| ensures ids[j] != s[i].id {
        assert ids[j] == Ids(s)[lo + j] && lo + j != i;
      }
    }
  }

  // ----- home figures -----

  /** `s => s.progressPercentage < 60`. */
  function Struggling(): Student -> bool {
    (s: Student) => s.progressPercentage < 60
  }

  /** The "Necesitan Apoyo" figure. */
  function NeedsSupport(students: seq<Student>): (r: nat)
    ensures r <= |students|
  {
    |Seqs.Filter(students, Struggling())|
  }

  /** The students needing support are exactly those of the low band of the student list's progress selector. */
  lemma NeedsSupportIsLowBand(students: seq<Student>)
    ensures NeedsSupport(students)
         == |Seqs.Filter(students, (s: Student) => StudentDashboard.MatchesProgress("low", s))|
  {
    Seqs.FilterCongruent(students, Struggling(), (s: Student) => StudentDashboard.MatchesProgress("low", s));
  }

  /** The "Promedio General" figure: the rounded mean progress of all students. */
  function GeneralAverage(students: seq<Student>): (r: nat)
    requires students != []
    ensures 2 * |students| * r <= 2 * SumProgress(students) + |students| < 2 * |students| * (r + 1)
    ensures (forall i :: 0 <= i < |students| ==> students[i].progressPercentage <= 100) ==> r <= 100
  {
    AverageProgress(students)
  }

  /** The four figures of the home section. */
  datatype HomeStats = HomeStats(totalGroups: nat, totalStudents: nat, generalAverage: nat, needsSupport: nat)

  function Home(groups: seq<Group>): (r: HomeStats)
    ensures r.totalGroups == |groups| && r.totalStudents == |MockStudents|
    ensures r.needsSupport <= r.totalStudents
  {
    HomeStats(|groups|, |MockStudents|, GeneralAverage(MockStudents), NeedsSupport(MockStudents))
  }

  /** With the seed: five groups, nine students, 710 / 9 rounds to 79, and one student below 60. */
  lemma SeedHome()
    ensures Home(MockGroups) == HomeStats(5, 9, 79, 1)
  {
    SeedTotal();
    Arith.RoundDivUnique(710, 9, 79);
    SeedNeedsSupport();
  }

  lemma SeedTotal()
    ensures SumProgress(MockStudents) == 710
  {
    SumSlice(0, 9);
    assert MockStudents[0..9] == MockStudents;
  }

  /** Only the fourth seed student is below 60. */
  lemma SeedNeedsSupport()
    ensures NeedsSupport(MockStudents) == 1
  {
    var s := MockStudents;
    assert s == s[..3] + [s[3]] + s[4..];
    Seqs.FilterAppend(s[..3] + [s[3]], s[4..], Struggling());
    Seqs.FilterAppend(s[..3], [s[3]], Struggling());
    Seqs.FilterNone(s[..3], Struggling());
    Seqs.FilterNone(s[4..], Struggling());
  }

  // ----- navigation -----

  /** `id => id !== null && id !== ''`: the ternaries test the selection for truthiness. */
  predicate Selected(id: Option<string>) {
    id.Some? && id.value != ""
  }

  function HasGroupId(groupId: string): Group -> bool {
    (g: Group) => g.id == groupId
  }

  function HasStudentId(studentId: string): Student -> bool {
    (s: Student) => s.id == studentId
  }

  /** `selectedGroupId ? groups.find(g => g.id === selectedGroupId) : null` (also for the managed group). */
  function LookupGroup(groups: seq<Group>, groupId: Option<string>): (r: Option<Group>)
    ensures r.Some? ==> Selected(groupId) && r.value in groups && r.value.id == groupId.value
    ensures Selected(groupId) && (exists i :: 0 <= i < |groups| && groups[i].id == groupId.value) ==> r.Some?
    ensures r.Some? ==> exists k :: 0 <= k < |groups| && groups[k] == r.value
                          && forall j :: 0 <= j < k ==> groups[j].id != groupId.value
  {
    if Selected(groupId) then
      var r := Seqs.Find(groups, HasGroupId(groupId.value));
      assert r.Some? ==> forall j :: 0 <= j < Seqs.FindIndex(groups, HasGroupId(groupId.value)) ==> groups[j].id != groupId.value by {
        if r.Some? {
          forall j | 0 <= j < Seqs.FindIndex(groups, HasGroupId(groupId.value))
            ensures groups[j].id != groupId.value
          {
            assert !HasGroupId(groupId.value)(groups[j]);
          }
        }
      }
      r
    else None
  }

  /** `selectedStudentId ? mockStudents.find(s => s.id === selectedStudentId) : null`. */
  function LookupStudent(studentId: Option<string>): (r: Option<Student>)
    ensures r.Some? ==> Selected(studentId) && r.value in MockStudents && r.value.id == studentId.value
    ensures Selected(studentId) && studentId.value in Ids(MockStudents) ==> r.Some?
  {
    if Selected(studentId) then
      var r := Seqs.Find(MockStudents, HasStudentId(studentId.value));
      assert studentId.value in Ids(MockStudents) ==> r.Some? by {
        if studentId.value in Ids(MockStudents) {
          var k :| 0 <= k < |MockStudents| && Ids(MockStudents)[k] == studentId.value;
          assert HasStudentId(studentId.value)(MockStudents[k]);
        }
      }
      r
    else None
  }

  /** What the main area shows. */
  datatype View =
    | ManageView(group: Group)
    | ProfileView(student: Student)
    | StudentListView(group: Group)
    | HomeView(stats: HomeStats)
    | GroupsView(groups: seq<Group>)
    | NotFoundView

  /** The section switch: `'inicio'`, `'grupos'`, and a "not found" panel for any other section. */
  function SectionView(activeSection: string, groups: seq<Group>): (v: View)
    ensures v.HomeView? <==> activeSection == "inicio"
    ensures v.GroupsView? <==> activeSection == "grupos"
    ensures v.GroupsView? ==> v.groups == groups
    ensures v.NotFoundView? <==> activeSection != "inicio" && activeSection != "grupos"
  {
    if activeSection == "inicio" then HomeView(Home(groups))
    else if activeSection == "grupos" then GroupsView(groups)
    else NotFoundView
  }

  /**
   * `renderMainContent`: the managed group wins over the selected student,
   * which wins over the selected group, which wins over the section.
   */
  function MainView(groups: seq<Group>, activeSection: string,
                    selectedGroupId: Option<string>, selectedStudentId: Option<string>,
                    managingId: Option<string>): (v: View)
    ensures LookupGroup(groups, managingId).Some? <==> v.ManageView?
    ensures v.ManageView? ==> v.group == LookupGroup(groups, managingId).value
    ensures v.ProfileView? <==> LookupGroup(groups, managingId).None? && LookupStudent(selectedStudentId).Some?
    ensures v.ProfileView? ==> v.student == LookupStudent(selectedStudentId).value
    ensures v.StudentListView? <==>
              && LookupGroup(groups, managingId).None? && LookupStudent(selectedStudentId).None?
              && LookupGroup(groups, selectedGroupId).Some?
    ensures v.StudentListView? ==> v.group == LookupGroup(groups, selectedGroupId).value
    ensures !Selected(managingId) && !Selected(selectedStudentId) && !Selected(selectedGroupId)
            ==> v == SectionView(activeSection, groups)
  {
    var managing := LookupGroup(groups, managingId);
    var student := LookupStudent(selectedStudentId);
    var group := LookupGroup(groups, selectedGroupId);
    if managing.Some? then ManageView(managing.value)
    else if student.Some? then ProfileView(student.value)
    else if group.Some? then StudentListView(group.value)
    else SectionView(activeSection, groups)
  }

  /** The navigation state of the teacher dashboard. */
  class DashboardNav {
    var activeSection: string
    var selectedGroupId: Option<string>
    var selectedStudentId: Option<string>
    var managingStudentsGroupId: Option<string>
    var showContactDialog: bool
    var groups: seq<Group>

    /** The dashboard opens on the home section, nothing selected, with the seed groups. */
    constructor ()
      ensures activeSection == "inicio" && groups == MockGroups && !showContactDialog
      ensures selectedGroupId.None? && selectedStudentId.None? && managingStudentsGroupId.None?
      ensures View() == HomeView(Home(MockGroups))
    {
      activeSection := "inicio";
      selectedGroupId := None;
      selectedStudentId := None;
      managingStudentsGroupId := None;
      showContactDialog := false;
      groups := MockGroups;
    }

    function View(): View
      reads this
    {
      MainView(groups, activeSection, selectedGroupId, selectedStudentId, managingStudentsGroupId)
    }

    /** `handleViewGroup`: select the group and clear the other two selections. */
    method ViewGroup(groupId: string)
      modifies this
      ensures selectedGroupId == Some(groupId) && selectedStudentId.None? && managingStudentsGroupId.None?
      ensures activeSection == old(activeSection) && groups == old(groups) && showContactDialog == old(showContactDialog)
      ensures LookupGroup(groups, Some(groupId)).Some? ==> View() == StudentListView(LookupGroup(groups, Some(groupId)).value)
    {
      selectedGroupId := Some(groupId);
      selectedStudentId := None;
      managingStudentsGroupId := None;
    }

    /** `handleViewProfile`: select the student; the group stays selected for the way back. */
    method ViewProfile(studentId: string)
      modifies this
      ensures selectedStudentId == Some(studentId)
      ensures selectedGroupId == old(selectedGroupId) && managingStudentsGroupId == old(managingStudentsGroupId)
      ensures activeSection == old(activeSection) && groups == old(groups) && showContactDialog == old(showContactDialog)
      ensures LookupGroup(groups, managingStudentsGroupId).None? && LookupStudent(Some(studentId)).Some?
              ==> View() == ProfileView(LookupStudent(Some(studentId)).value)
    {
      selectedStudentId := Some(studentId);
    }

    /** `handleManageStudents`: open the editor on the group and clear the other two selections. */
    method ManageStudents(groupId: string)
      modifies this
      ensures managingStudentsGroupId == Some(groupId) && selectedGroupId.None? && selectedStudentId.None?
      ensures activeSection == old(activeSection) && groups == old(groups) && showContactDialog == old(showContactDialog)
      ensures LookupGroup(groups, Some(groupId)).Some? ==> View() == ManageView(LookupGroup(groups, Some(groupId)).value)
    {
      managingStudentsGroupId := Some(groupId);
      selectedGroupId := None;
      selectedStudentId := None;
    }

    /** `handleUpdateGroup`: store the saved roster. */
    method UpdateGroup(groupId: string, studentIds: seq<string>)
      modifies this
      ensures groups == UpdateGroups(old(groups), groupId, studentIds)
      ensures activeSection == old(activeSection) && showContactDialog == old(showContactDialog)
      ensures selectedGroupId == old(selectedGroupId) && selectedStudentId == old(selectedStudentId)
      ensures managingStudentsGroupId == old(managingStudentsGroupId)
    {
      groups := UpdateGroups(groups, groupId, studentIds);
    }

    /** `handleBackToGroups`: clear every selection and show the group list. */
    method BackToGroups()
      modifies this
      ensures selectedGroupId.None? && selectedStudentId.None? && managingStudentsGroupId.None?
      ensures activeSection == "grupos"
      ensures groups == old(groups) && showContactDialog == old(showContactDialog)
      ensures View() == GroupsView(groups)
    {
      selectedGroupId := None;
      selectedStudentId := None;
      managingStudentsGroupId := None;
      activeSection := "grupos";
    }

    /** `handleBackToGroup`: leave the profile; the selected group, if any, is shown again. */
    method BackToGroup()
      modifies this
      ensures selectedStudentId.None?
      ensures selectedGroupId == old(selectedGroupId) && managingStudentsGroupId == old(managingStudentsGroupId)
      ensures activeSection == old(activeSection) && groups == old(groups) && showContactDialog == old(showContactDialog)
      ensures LookupGroup(groups, managingStudentsGroupId).None? && LookupGroup(groups, selectedGroupId).Some?
              ==> View() == StudentListView(LookupGroup(groups, selectedGroupId).value)
    {
      selectedStudentId := None;
    }

    /** `handleBackFromManage`: close the editor and show the group list section. */
    method BackFromManage()
      modifies this
      ensures managingStudentsGroupId.None? && activeSection == "grupos"
      ensures selectedGroupId == old(selectedGroupId) && selectedStudentId == old(selectedStudentId)
      ensures groups == old(groups) && showContactDialog == old(showContactDialog)
      ensures !Selected(selectedGroupId) && !Selected(selectedStudentId) ==> View() == GroupsView(groups)
    {
      managingStudentsGroupId := None;
      activeSection := "grupos";
    }

    /** The sidebar's `onSectionChange`: only the section changes, so a selection still in place keeps priority. */
    method SetSection(section: string)
      modifies this
      ensures activeSection == section
      ensures selectedGroupId == old(selectedGroupId) && selectedStudentId == old(selectedStudentId)
      ensures managingStudentsGroupId == old(managingStudentsGroupId)
      ensures groups == old(groups) && showContactDialog == old(showContactDialog)
      ensures LookupGroup(groups, selectedGroupId).Some? ==> !View().HomeView? && !View().GroupsView? && !View().NotFoundView?
    {
      activeSection := section;
    }

    /** `handleContactAdmin` and the dialog's close button. */
    method SetContactDialog(open: bool)
      modifies this
      ensures showContactDialog == open
      ensures activeSection == old(activeSection) && groups == old(groups)
      ensures selectedGroupId == old(selectedGroupId) && selectedStudentId == old(selectedStudentId)
      ensures managingStudentsGroupId == old(managingStudentsGroupId)
    {
      showContactDialog := open;
    }
  }

  /** Opening a seed group's editor and saving its roster unchanged leaves the dashboard's groups as they were. */
  method OpenAndSaveUnchanged(nav: DashboardNav, k: nat)
    requires nav.groups == MockGroups && k < |MockGroups|
    modifies nav
    ensures nav.groups == MockGroups
  {
    var g := MockGroups[k];
    nav.ManageStudents(g.id);
    var editor := new ManageStudents.RosterEditor(g);
    var groupId, studentIds := editor.Save();
    nav.UpdateGroup(groupId, studentIds);
    SaveUnchangedSeedGroup(k);
    SeedGroupIdsDistinct();
    UpdateWithSameGroup(MockGroups, k, studentIds);
  }
}
