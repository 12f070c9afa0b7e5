/**
 * The teacher dashboard's entity model: students with their skills and
 * achievements, groups with their rosters and derived statistics, and the
 * seed data the dashboard starts from (`mockStudents`, `mockGroups`).
 */
module Students {
  import opened Wrappers
  import Arith
  import Seqs

  /** The five keys of `mathSkills`, in the order the interface declares them. */
  datatype SkillArea = Algebra | Geometry | Arithmetic | Statistics | Calculus

  datatype MathSkills = MathSkills(algebra: nat, geometry: nat, arithmetic: nat, statistics: nat, calculus: nat)
  {
    /** The score recorded for one area. */
    function Score(area: SkillArea): nat {
      match area
      case Algebra => algebra
      case Geometry => geometry
      case Arithmetic => arithmetic
      case Statistics => statistics
      case Calculus => calculus
    }

    /** `Object.entries(mathSkills)`: one (key, value) pair per area, in declaration order. */
    function Entries(): (r: seq<(SkillArea, nat)>)
      ensures |r| == 5
      ensures forall i :: 0 <= i < 5 ==> r[i].0 == SkillOrder[i] && r[i].1 == Score(SkillOrder[i])
    {
      [(Algebra, algebra), (Geometry, geometry), (Arithmetic, arithmetic),
       (Statistics, statistics), (Calculus, calculus)]
    }
  }

  /** Declaration order of the skill keys. */
  const SkillOrder: seq<SkillArea> := [Algebra, Geometry, Arithmetic, Statistics, Calculus]

  datatype Achievement = Achievement(id: string, title: string, description: string, dateEarned: Option<string>)

  datatype CourseProgress = CourseProgress(currentUnit: string, startDate: string, completedPercentage: nat)

  datatype Student = Student(
    id: string,
    name: string,
    grade: string,
    groupId: string,
    progressPercentage: nat,
    learningStyle: string,
    mathSkills: MathSkills,
    achievements: seq<Achievement>,
    courseProgress: CourseProgress)

  datatype Group = Group(
    id: string,
    name: string,
    grade: string,
    studentCount: nat,
    averageProgress: nat,
    color: string,
    students: seq<Student>)

  /** The three learning styles the templates are written for. */
  const Visual := "Visual"
  const Auditivo := "Auditivo"
  const Kinestesico := "Kinestésico"

  /** The three learning styles are different strings. */
  lemma StylesDistinct()
    ensures Visual != Auditivo && Visual != Kinestesico && Auditivo != Kinestesico
  {
    assert |Visual| == 6 && |Auditivo| == 8 && |Kinestesico| == 11;
  }

  /** The ids of a list of students, in order. */
  function Ids(students: seq<Student>): (r: seq<string>)
    ensures |r| == |students|
    ensures forall i :: 0 <= i < |r| ==> r[i] == students[i].id
  {
    seq(|students|, i requires 0 <= i < |students| => students[i].id)
  }

  /** The sum of `progressPercentage` over a list of students. */
  function SumProgress(students: seq<Student>): (r: nat)
    ensures (forall i :: 0 <= i < |students| ==> students[i].progressPercentage <= 100) ==> r <= 100 * |students|
  {
    if students == [] then 0 else students[0].progressPercentage + SumProgress(students[1..])
  }

  /**
   * The averaging rule for a roster: the rounded mean of the members'
   * progress, or 0 for an empty roster.
   */
  function AverageProgress(students: seq<Student>): (r: nat)
    ensures students == [] ==> r == 0
    ensures students != [] ==> 2 * |students| * r <= 2 * SumProgress(students) + |students| < 2 * |students| * (r + 1)
    ensures (forall i :: 0 <= i < |students| ==> students[i].progressPercentage <= 100) ==> r <= 100
  {
    if |students| > 0 then
      var r := Arith.RoundDiv(SumProgress(students), |students|);
      assert (forall i :: 0 <= i < |students| ==> students[i].progressPercentage <= 100) ==> r <= 100 by {
        if forall i :: 0 <= i < |students| ==> students[i].progressPercentage <= 100 {
          Arith.RoundDivBounded(SumProgress(students), |students|, 100);
        }
      }
      r
    else 0
  }

  /** Whether a student's recorded values lie in the documented range [0, 100]. */
  predicate InRange(s: Student) {
    && s.progressPercentage <= 100
    && s.mathSkills.algebra <= 100
    && s.mathSkills.geometry <= 100
    && s.mathSkills.arithmetic <= 100
    && s.mathSkills.statistics <= 100
    && s.mathSkills.calculus <= 100
  }

  // ----- seed data -----

  const FirstTwoAchievements: seq<Achievement> := [
    Achievement("a1", "Primer Ejercicio Completado", "Completaste tu primer ejercicio.", Some("2024-01-15")),
    Achievement("a2", "5 Ejercicios Completados", "Completaste 5 ejercicios.", Some("2024-01-20"))
  ]

  const Ana: Student :=
    Student("1", "Ana García Mendoza", "1° Secundaria", "A", 85, Visual,
      MathSkills(90, 75, 95, 80, 70), FirstTwoAchievements,
      CourseProgress("Números Enteros", "2024-08-15", 85))

  const Carlos: Student :=
    Student("2", "Carlos Mendoza Rivera", "1° Secundaria", "A", 72, Kinestesico,
      MathSkills(65, 85, 80, 60, 70), FirstTwoAchievements,
      CourseProgress("Geometría Básica", "2024-08-15", 72))

  const Maria: Student :=
    Student("3", "María Rodríguez López", "1° Secundaria", "A", 91, Auditivo,
      MathSkills(88, 92, 95, 85, 80), FirstTwoAchievements,
      CourseProgress("Fracciones", "2024-08-15", 91))

  const Diego: Student :=
    Student("4", "Diego Torres Vázquez", "1° Secundaria", "A", 58, Visual,
      MathSkills(45, 60, 70, 50, 40), [],
      CourseProgress("Operaciones Básicas", "2024-08-15", 58))

  const Sofia: Student :=
    Student("5", "Sofia Hernández Castro", "1° Secundaria", "A", 79, Auditivo,
      MathSkills(75, 80, 85, 75, 70), [],
      CourseProgress("Proporciones", "2024-08-15", 79))

  const Roberto: Student :=
    Student("6", "Roberto Jiménez Silva", "2° Secundaria", "B", 88, Kinestesico,
      MathSkills(92, 85, 90, 85, 80), [],
      CourseProgress("Ecuaciones Lineales", "2024-08-15", 88))

  const Camila: Student :=
    Student("7", "Camila Morales Ruiz", "2° Secundaria", "B", 76, Visual,
      MathSkills(80, 78, 85, 70, 65), [],
      CourseProgress("Sistemas de Ecuaciones", "2024-08-15", 76))

  const Alejandro: Student :=
    Student("8", "Alejandro Pérez Gómez", "3° Secundaria", "C", 94, Auditivo,
      MathSkills(95, 90, 98, 92, 88), [],
      CourseProgress("Funciones Cuadráticas", "2024-08-15", 94))

  const Isabella: Student :=
    Student("9", "Isabella Ramírez Cruz", "3° Secundaria", "C", 67, Visual,
      MathSkills(70, 65, 75, 60, 55), [],
      CourseProgress("Trigonometría Básica", "2024-08-15", 67))

  /** `mockStudents`: groups A (students 1-5), B (6-7) and C (8-9). */
  const MockStudents: seq<Student> := [Ana, Carlos, Maria, Diego, Sofia, Roberto, Camila, Alejandro, Isabella]

  /** The predicate `s => s.groupId === groupId`. */
  function InGroup(groupId: string): Student -> bool {
    (s: Student) => s.groupId == groupId
  }

  /** `mockStudents.filter(s => s.groupId === id)`. */
  function MembersOf(students: seq<Student>, groupId: string): (r: seq<Student>)
    ensures forall i :: 0 <= i < |r| ==> r[i].groupId == groupId
  {
    Seqs.Filter(students, InGroup(groupId))
  }

  const MockGroups: seq<Group> := [
    Group("A", "Grupo A", "1° Secundaria", 5, 77, "from-blue-500 to-blue-600", MembersOf(MockStudents, "A")),
    Group("B", "Grupo B", "2° Secundaria", 2, 82, "from-emerald-500 to-emerald-600", MembersOf(MockStudents, "B")),
    Group("C", "Grupo C", "3° Secundaria", 2, 81, "from-purple-500 to-purple-600", MembersOf(MockStudents, "C")),
    Group("D", "Grupo D", "1° Secundaria", 0, 0, "from-amber-500 to-amber-600", []),
    Group("E", "Grupo E", "2° Secundaria", 0, 0, "from-rose-500 to-rose-600", [])
  ]

  // ----- seed invariants -----

  /** Every seed student's progress and five skill scores lie in [0, 100]. */
  lemma SeedStudentsInRange()
    ensures forall i :: 0 <= i < |MockStudents| ==> InRange(MockStudents[i])
  {
  }

  /** Seed student ids are pairwise distinct. */
  lemma SeedIdsDistinct()
    ensures Seqs.NoDups(Ids(MockStudents))
  {
    assert Ids(MockStudents) == ["1", "2", "3", "4", "5", "6", "7", "8", "9"];
  }

  /** The roster of a group whose members form the slice `s[lo..hi]` of the seed. */
  lemma RosterIsSlice(groupId: string, lo: nat, hi: nat)
    requires lo <= hi <= |MockStudents|
    requires forall i :: 0 <= i < |MockStudents| ==> (MockStudents[i].groupId == groupId <==> lo <= i < hi)
    ensures MembersOf(MockStudents, groupId) == MockStudents[lo..hi]
  {
    Seqs.FilterSlice(MockStudents, InGroup(groupId), lo, hi);
  }

  /** Groups A, B and C hold exactly the seed students with their `groupId`, in seed order. */
  lemma SeedRosters()
    ensures MockGroups[0].students == MockStudents[..5]
    ensures MockGroups[1].students == MockStudents[5..7]
    ensures MockGroups[2].students == MockStudents[7..]
  {
    RosterIsSlice("A", 0, 5);
    RosterIsSlice("B", 5, 7);
    RosterIsSlice("C", 7, 9);
  }

  /**
   * Every seed group's derived fields agree with its roster: the count is the
   * roster's length and the average follows the averaging rule (A: 385/5 = 77,
   * B: 164/2 = 82, C: 161/2 = 80.5, rounded up to 81; D and E are empty).
   */
  lemma SeedGroupsConsistent()
    ensures forall g :: g in MockGroups ==>
              g.studentCount == |g.students| && g.averageProgress == AverageProgress(g.students)
  {
    forall g | g in MockGroups
      ensures g.studentCount == |g.students| && g.averageProgress == AverageProgress(g.students)
    {
      var k :| 0 <= k < |MockGroups| && MockGroups[k] == g;
      SeedGroupConsistent(k);
    }
  }

  lemma SeedGroupConsistent(k: nat)
    requires k < |MockGroups|
    ensures var g := MockGroups[k];
            g.studentCount == |g.students| && g.averageProgress == AverageProgress(g.students)
  {
    SeedRosters();
    var s := MockStudents;
    if k == 0 {
      SumSlice(0, 5);
      assert s[0..5] == s[..5];
    } else if k == 1 {
      SumSlice(5, 7);
    } else if k == 2 {
      SumSlice(7, 9);
      assert s[7..9] == s[7..];
    }
  }

  /** The seed's progress values, summed over a slice. */
  function SeedProgressSum(lo: nat, hi: nat): nat
    requires lo <= hi <= |MockStudents|
    decreases hi - lo
  {
    if lo == hi then 0 else MockStudents[lo].progressPercentage + SeedProgressSum(lo + 1, hi)
  }

  lemma {:induction false} SumSlice(lo: nat, hi: nat)
    requires lo <= hi <= |MockStudents|
    ensures SumProgress(MockStudents[lo..hi]) == SeedProgressSum(lo, hi)
    decreases hi - lo
  {
    if lo < hi {
      assert MockStudents[lo..hi][1..] == MockStudents[lo + 1..hi];
      SumSlice(lo + 1, hi);
    }
  }
}
