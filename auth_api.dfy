/**
 * The simulated authentication service: the user table with its password
 * table, `login` (lookup by email, then password check, then the `lastLogin`
 * update on the stored record), `getUserProfile` and the role-specific data
 * projection.
 *
 * The current time is a parameter of `Login`: `now` is the ISO rendering of
 * `new Date()` and `stamp` the decimal rendering of `Date.now()`.
 */
module AuthApi {
  import opened Wrappers
  import Seqs
  import Exercises

  /** The three roles of the type, plus any other value a stored session could carry. */
  datatype Role = StudentRole | TeacherRole | DirectorRole | OtherRole(name: string)

  function RoleName(r: Role): string {
    match r
    case StudentRole => "student"
    case TeacherRole => "teacher"
    case DirectorRole => "director"
    case OtherRole(name) => name
  }

  /** The role a role string denotes; `OtherRole` is reserved for names outside the three. */
  function ParseRole(name: string): (r: Role)
    ensures RoleName(r) == name
    ensures r.OtherRole? <==> name != "student" && name != "teacher" && name != "director"
  {
    if name == "student" then StudentRole
    else if name == "teacher" then TeacherRole
    else if name == "director" then DirectorRole
    else OtherRole(name)
  }

  /** A role as `ParseRole` builds it: no `OtherRole` spells one of the three names. */
  predicate CanonicalRole(r: Role) {
    r.OtherRole? ==> r.name != "student" && r.name != "teacher" && r.name != "director"
  }

  /**
   * The role a user record carries. The source compares role strings, so a
   * user whose role string is "teacher" is a teacher; holding only canonical
   * roles makes `==` on roles agree with string equality.
   */
  type CanonRole = r: Role | CanonicalRole(r) witness StudentRole

  /** Roles and role strings correspond one to one. */
  lemma RoleNameRoundTrip(r: Role, name: string)
    ensures CanonicalRole(r) ==> ParseRole(RoleName(r)) == r
    ensures CanonicalRole(ParseRole(name))
  {
  }

  /** Two canonical roles are equal exactly when their strings are. */
  lemma RoleNameInjective(r1: CanonRole, r2: CanonRole)
    ensures r1 == r2 <==> RoleName(r1) == RoleName(r2)
  {
    if RoleName(r1) == RoleName(r2) {
      RoleNameRoundTrip(r1, "");
      RoleNameRoundTrip(r2, "");
    }
  }

  /** The student record of a user (its skill and achievement lists are not read by the modelled code). */
  datatype StudentData = StudentData(
    enrollmentNumber: string,
    classId: string,
    className: string,
    teacherId: string,
    teacherName: string,
    overallProgress: nat,
    completedExercises: nat,
    totalExercises: nat,
    currentLevel: nat,
    points: nat)

  datatype ClassInfo = ClassInfo(
    id: string, name: string, grade: string, studentCount: nat, averageProgress: nat, subject: string, schedule: string)

  datatype TeacherData = TeacherData(
    employeeId: string,
    totalStudents: nat,
    averageClassProgress: nat,
    department: string,
    specialization: seq<string>,
    classes: seq<ClassInfo>)

  datatype DirectorData = DirectorData(
    schoolId: string,
    schoolName: string,
    totalTeachers: nat,
    totalStudents: nat,
    totalClasses: nat,
    overallSchoolProgress: nat,
    departments: seq<string>)

  /** A user (the avatar URL is not modelled). */
  datatype User = User(
    id: string,
    email: string,
    name: string,
    role: CanonRole,
    createdAt: string,
    lastLogin: string,
    isActive: bool,
    studentData: Option<StudentData>,
    teacherData: Option<TeacherData>,
    directorData: Option<DirectorData>)

  const StudentAccount: User :=
    User("student-1", "alumno@escuela.edu", "María González", StudentRole,
      "2024-01-15T08:00:00Z", "2025-09-01T09:30:00Z", true,
      Some(StudentData("EST-2024-001", "class-3a", "3° A - Matemáticas", "teacher-1", "Prof. Elena Martínez",
        78, 142, 182, 8, 2847)),
      None, None)

  const TeacherAccount: User :=
    User("teacher-1", "profesor@escuela.edu", "Prof. Elena Martínez", TeacherRole,
      "2023-08-01T08:00:00Z", "2025-09-01T08:15:00Z", true,
      None,
      Some(TeacherData("PROF-2023-005", 127, 79, "Matemáticas", ["Álgebra", "Geometría", "Cálculo"], [
        ClassInfo("class-3a", "3° A", "Tercero", 32, 82, "Matemáticas", "Lun-Vie 08:00-09:00"),
        ClassInfo("class-3b", "3° B", "Tercero", 28, 75, "Matemáticas", "Lun-Vie 09:00-10:00"),
        ClassInfo("class-2a", "2° A", "Segundo", 35, 78, "Matemáticas", "Lun-Vie 10:00-11:00"),
        ClassInfo("class-2b", "2° B", "Segundo", 32, 81, "Matemáticas", "Lun-Vie 11:00-12:00")])),
      None)

  const DirectorAccount: User :=
    User("director-1", "director@escuela.edu", "Dr. Roberto Hernández", DirectorRole,
      "2022-01-10T08:00:00Z", "2025-09-01T07:45:00Z", true,
      None, None,
      Some(DirectorData("ESC-001", "Escuela Secundaria Federal #1", 45, 850, 24, 76,
        ["Matemáticas", "Ciencias", "Humanidades", "Artes", "Educación Física"])))

  /** `mockUsers`: the student, the teacher and the director. */
  const MockUsers: seq<User> := [StudentAccount, TeacherAccount, DirectorAccount]

  /** `validPasswords`: the password accepted for each known email. */
  const ValidPasswords: map<string, string> := map[
    "alumno@escuela.edu" := "alumno123",
    "profesor@escuela.edu" := "profesor123",
    "director@escuela.edu" := "director123"
  ]

  datatype LoginRequest = LoginRequest(email: string, password: string)

  /** A login answer; a failed one carries no user (the source's empty object). */
  datatype LoginResponse = LoginResponse(success: bool, token: string, user: Option<User>, message: Option<string>)

  const UserNotFound := "Usuario no encontrado"
  const WrongPassword := "Contraseña incorrecta"
  const LoginOk := "Login exitoso"
  const TokenPrefix := "mock-jwt-token-"

  function Failure(message: string): LoginResponse {
    LoginResponse(false, "", None, Some(message))
  }

  function HasEmail(email: string): User -> bool {
    (u: User) => u.email == email
  }

  function HasId(id: string): User -> bool {
    (u: User) => u.id == id
  }

  /** `validPasswords[email] !== password` fails for an email the table lacks as well. */
  predicate PasswordMatches(c: LoginRequest) {
    c.email in ValidPasswords && ValidPasswords[c.email] == c.password
  }

  /**
   * The effect of `login` on the user table and its answer: the first user
   * with the email must exist and the password must match; then that
   * record's `lastLogin` becomes `now` and the token names the user.
   */
  function LoginStep(users: seq<User>, c: LoginRequest, now: string, stamp: string): (res: (LoginResponse, seq<User>))
    ensures |res.1| == |users|
  {
    var k := Seqs.FindIndex(users, HasEmail(c.email));
    if k == |users| then (Failure(UserNotFound), users)
    else if !PasswordMatches(c) then (Failure(WrongPassword), users)
    else
      var u := users[k].(lastLogin := now);
      (LoginResponse(true, TokenPrefix + u.id + "-" + stamp, Some(u), Some(LoginOk)), users[k := u])
  }

  predicate KnownEmail(users: seq<User>, email: string) {
    exists i :: 0 <= i < |users| && users[i].email == email
  }

  /** An unknown email fails with "Usuario no encontrado" and an empty token, whatever the password. */
  lemma UnknownEmail(users: seq<User>, c: LoginRequest, now: string, stamp: string)
    requires !KnownEmail(users, c.email)
    ensures LoginStep(users, c, now, stamp) == (LoginResponse(false, "", None, Some("Usuario no encontrado")), users)
  {
  }

  /** The email is looked up first: a wrong password is reported only for a known email, and then always. */
  lemma WrongPasswordReported(users: seq<User>, c: LoginRequest, now: string, stamp: string)
    ensures LoginStep(users, c, now, stamp).0.message == Some("Contraseña incorrecta")
        <==> KnownEmail(users, c.email) && !PasswordMatches(c)
  {
    var k := Seqs.FindIndex(users, HasEmail(c.email));
    if k == |users| {
      UnknownEmail(users, c, now, stamp);
    }
  }

  /** A login succeeds exactly when the email is known and the password is the table's. */
  lemma SuccessIff(users: seq<User>, c: LoginRequest, now: string, stamp: string)
    ensures LoginStep(users, c, now, stamp).0.success <==> KnownEmail(users, c.email) && PasswordMatches(c)
  {
    var k := Seqs.FindIndex(users, HasEmail(c.email));
    if k == |users| {
      UnknownEmail(users, c, now, stamp);
    }
  }

  /** A failed login changes no record; a successful one changes only the found record's `lastLogin`. */
  lemma LoginEffect(users: seq<User>, c: LoginRequest, now: string, stamp: string)
    ensures var (res, after) := LoginStep(users, c, now, stamp);
            && (!res.success ==> after == users && res.token == "" && res.user.None?)
            && (res.success ==>
                  && res.user.Some?
                  && res.user.value.email == c.email
                  && res.user.value == users[Seqs.FindIndex(users, HasEmail(c.email))].(lastLogin := now)
                  && res.token == "mock-jwt-token-" + res.user.value.id + "-" + stamp
                  && (forall i :: 0 <= i < |users| && i != Seqs.FindIndex(users, HasEmail(c.email)) ==> after[i] == users[i])
                  && after[Seqs.FindIndex(users, HasEmail(c.email))] == res.user.value)
  {
    var k := Seqs.FindIndex(users, HasEmail(c.email));
    if k < |users| && PasswordMatches(c) {
      var u := users[k].(lastLogin := now);
      assert LoginStep(users, c, now, stamp) == (LoginResponse(true, TokenPrefix + u.id + "-" + stamp, Some(u), Some(LoginOk)), users[k := u]);
      assert u.email == c.email;
    } else {
      assert LoginStep(users, c, now, stamp).1 == users;
    }
  }

  /** The three seed credentials log in, as the student, the teacher and the director. */
  lemma SeedCredentials(now: string, stamp: string)
    ensures var r := LoginStep(MockUsers, LoginRequest("alumno@escuela.edu", "alumno123"), now, stamp).0;
            r.success && r.user.Some? && r.user.value.role == StudentRole && r.user.value.id == "student-1"
    ensures var r := LoginStep(MockUsers, LoginRequest("profesor@escuela.edu", "profesor123"), now, stamp).0;
            r.success && r.user.Some? && r.user.value.role == TeacherRole && r.user.value.id == "teacher-1"
    ensures var r := LoginStep(MockUsers, LoginRequest("director@escuela.edu", "director123"), now, stamp).0;
            r.success && r.user.Some? && r.user.value.role == DirectorRole && r.user.value.id == "director-1"
  {
    SeedLookup();
    SeedAccounts();
    SeedPasswords();
    LoginFound(MockUsers, LoginRequest("alumno@escuela.edu", "alumno123"), now, stamp, 0, StudentRole, "student-1");
    LoginFound(MockUsers, LoginRequest("profesor@escuela.edu", "profesor123"), now, stamp, 1, TeacherRole, "teacher-1");
    LoginFound(MockUsers, LoginRequest("director@escuela.edu", "director123"), now, stamp, 2, DirectorRole, "director-1");
  }

  lemma SeedAccounts()
    ensures MockUsers[0].role == StudentRole && MockUsers[0].id == "student-1"
    ensures MockUsers[1].role == TeacherRole && MockUsers[1].id == "teacher-1"
    ensures MockUsers[2].role == DirectorRole && MockUsers[2].id == "director-1"
  {
  }

  lemma SeedPasswords()
    ensures PasswordMatches(LoginRequest("alumno@escuela.edu", "alumno123"))
    ensures PasswordMatches(LoginRequest("profesor@escuela.edu", "profesor123"))
    ensures PasswordMatches(LoginRequest("director@escuela.edu", "director123"))
    ensures !PasswordMatches(LoginRequest("alumno@escuela.edu", "profesor123"))
  {
  }

  /** A found email with the right password signs in the found record, stamped with `now`. */
  lemma LoginFound(users: seq<User>, c: LoginRequest, now: string, stamp: string, k: nat, role: Role, id: string)
    requires k < |users| && Seqs.FindIndex(users, HasEmail(c.email)) == k && PasswordMatches(c)
    requires users[k].role == role && users[k].id == id
    ensures var r := LoginStep(users, c, now, stamp).0;
            r.success && r.user.Some? && r.user.value.role == role && r.user.value.id == id
  {
  }

  /** The position of each seed email in the table. */
  lemma SeedLookup()
    ensures Seqs.FindIndex(MockUsers, HasEmail("alumno@escuela.edu")) == 0
    ensures Seqs.FindIndex(MockUsers, HasEmail("profesor@escuela.edu")) == 1
    ensures Seqs.FindIndex(MockUsers, HasEmail("director@escuela.edu")) == 2
  {
    SeedEmails();
    LookupThree(MockUsers, "alumno@escuela.edu", "profesor@escuela.edu", "director@escuela.edu");
  }

  lemma SeedEmails()
    ensures |MockUsers| == 3
    ensures MockUsers[0].email == "alumno@escuela.edu"
    ensures MockUsers[1].email == "profesor@escuela.edu"
    ensures MockUsers[2].email == "director@escuela.edu"
  {
  }

  /** In a table of three distinct emails, each is found at its own position. */
  lemma LookupThree(users: seq<User>, e0: string, e1: string, e2: string)
    requires |users| == 3 && users[0].email == e0 && users[1].email == e1 && users[2].email == e2
    requires e0 != e1 && e0 != e2 && e1 != e2
    ensures Seqs.FindIndex(users, HasEmail(e0)) == 0
    ensures Seqs.FindIndex(users, HasEmail(e1)) == 1
    ensures Seqs.FindIndex(users, HasEmail(e2)) == 2
  {
    Seqs.FindIndexAt(users, HasEmail(e0), 0);
    Seqs.FindIndexAt(users, HasEmail(e1), 1);
    Seqs.FindIndexAt(users, HasEmail(e2), 2);
  }

  /** A seed email with another password is refused as a wrong password. */
  lemma SeedWrongPassword(now: string, stamp: string)
    ensures LoginStep(MockUsers, LoginRequest("alumno@escuela.edu", "profesor123"), now, stamp).0
         == LoginResponse(false, "", None, Some("Contraseña incorrecta"))
  {
    SeedLookup();
    SeedEmails();
    SeedPasswords();
  }

  /** The service's user table, whose records `login` updates in place. */
  class UserDirectory {
    var users: seq<User>

    constructor ()
      ensures users == MockUsers
    {
      users := MockUsers;
    }

    /** `authAPI.login` (the simulated network delay is not modelled). */
    method Login(credentials: LoginRequest, now: string, stamp: string) returns (response: LoginResponse)
      modifies this
      ensures (response, users) == LoginStep(old(users), credentials, now, stamp)
    {
      var k := Seqs.FindIndex(users, HasEmail(credentials.email));
      if k == |users| {
        return Failure(UserNotFound);
      }
      if !(credentials.email in ValidPasswords && ValidPasswords[credentials.email] == credentials.password) {
        return Failure(WrongPassword);
      }
      var u := users[k].(lastLogin := now);
      users := users[k := u];
      response := LoginResponse(true, TokenPrefix + u.id + "-" + stamp, Some(u), Some(LoginOk));
    }

    /** `authAPI.getUserProfile`: the first user with the id, or null. */
    function GetUserProfile(userId: string): (r: Option<User>)
      reads this
      ensures r.None? <==> forall i :: 0 <= i < |users| ==> users[i].id != userId
      ensures r.Some? ==> r.value.id == userId && r.value in users
      ensures r.Some? ==> forall i :: 0 <= i < Seqs.FindIndex(users, HasId(userId)) ==> users[i].id != userId
    {
      var r := Seqs.Find(users, HasId(userId));
      assert r.Some? ==> users[Seqs.FindIndex(users, HasId(userId))] in users;
      r
    }
  }

  // ----- role-specific data -----

  /** The static school figures handed to directors (the per-department, monthly and top-performing-class lists are not modelled). */
  datatype SchoolMetrics = SchoolMetrics(
    totalTeachers: nat, totalStudents: nat, totalClasses: nat, overallProgress: nat, needingSupportCount: nat)

  const MockSchoolMetrics := SchoolMetrics(45, 850, 24, 76, 127)

  /** The service's `mockExercises` (they record completion as `isCompleted`, which is not the `completed` field). */
  const MockExercises: seq<Exercises.Exercise> := [
    Exercises.Exercise("ex-1", "Ecuaciones Lineales Básicas", "Resuelve ecuaciones de primer grado con una incógnita",
      "easy", Some("Álgebra"), None, Some(false)),
    Exercises.Exercise("ex-2", "Sistema de Ecuaciones 2x2", "Resuelve sistemas de ecuaciones lineales con dos incógnitas",
      "medium", Some("Álgebra"), None, Some(true)),
    Exercises.Exercise("ex-3", "Área de Polígonos Regulares", "Calcula el área de diferentes polígonos regulares",
      "medium", Some("Geometría"), None, Some(false))
  ]

  /** The object `getRoleSpecificData` returns, one shape per role; any other role gets the empty object. */
  datatype RoleData =
    | StudentView(exercises: seq<Exercises.Exercise>, extraExercises: seq<Exercises.Exercise>, progress: nat)
    | TeacherView(classes: seq<ClassInfo>, totalStudents: nat, averageProgress: nat)
    | DirectorView(schoolMetrics: SchoolMetrics, totalTeachers: nat, totalStudents: nat)
    | EmptyView

  /** `ex => ex.isExtra`: an absent flag is falsy. */
  function IsExtra(): Exercises.Exercise -> bool {
    (e: Exercises.Exercise) => e.isExtra == Some(true)
  }

  /** `user.studentData?.x || 0`: a missing record, and a zero, give 0. */
  function StudentProgress(user: User): nat {
    if user.studentData.Some? then user.studentData.value.overallProgress else 0
  }

  function RoleSpecificData(user: User): (r: RoleData)
    ensures user.role == StudentRole <==> r.StudentView?
    ensures user.role == TeacherRole <==> r.TeacherView?
    ensures user.role == DirectorRole <==> r.DirectorView?
    ensures user.role.OtherRole? <==> r == EmptyView
    ensures r.StudentView? ==> r.progress == (if user.studentData.Some? then user.studentData.value.overallProgress else 0)
    ensures r.TeacherView? ==>
              && r.classes == (if user.teacherData.Some? then user.teacherData.value.classes else [])
              && r.totalStudents == (if user.teacherData.Some? then user.teacherData.value.totalStudents else 0)
              && r.averageProgress == (if user.teacherData.Some? then user.teacherData.value.averageClassProgress else 0)
    ensures r.DirectorView? ==>
              && r.schoolMetrics == MockSchoolMetrics
              && r.totalTeachers == (if user.directorData.Some? then user.directorData.value.totalTeachers else 0)
              && r.totalStudents == (if user.directorData.Some? then user.directorData.value.totalStudents else 0)
  {
    match user.role
    case StudentRole =>
      StudentView(Seqs.Filter(MockExercises, Seqs.Not(IsExtra())), Seqs.Filter(MockExercises, IsExtra()), StudentProgress(user))
    case TeacherRole =>
      var t := user.teacherData;
      TeacherView(
        if t.Some? then t.value.classes else [],
        if t.Some? then t.value.totalStudents else 0,
        if t.Some? then t.value.averageClassProgress else 0)
    case DirectorRole =>
      var d := user.directorData;
      DirectorView(MockSchoolMetrics,
        if d.Some? then d.value.totalTeachers else 0,
        if d.Some? then d.value.totalStudents else 0)
    case OtherRole(_) => EmptyView
  }

  /**
   * A student's regular and extra exercises split the exercise list: every
   * exercise lands in exactly one, an absent `isExtra` among the regular ones.
   */
  lemma StudentExercisesPartition(user: User)
    requires user.role == StudentRole
    ensures var r := RoleSpecificData(user);
            && multiset(r.exercises) + multiset(r.extraExercises) == multiset(MockExercises)
            && (forall e :: e in r.exercises <==> e in MockExercises && e.isExtra != Some(true))
            && (forall e :: e in r.extraExercises <==> e in MockExercises && e.isExtra == Some(true))
  {
    ExtraSplit(MockExercises);
  }

  lemma ExtraSplit(exercises: seq<Exercises.Exercise>)
    ensures multiset(Seqs.Filter(exercises, Seqs.Not(IsExtra()))) + multiset(Seqs.Filter(exercises, IsExtra())) == multiset(exercises)
    ensures forall e :: e in Seqs.Filter(exercises, Seqs.Not(IsExtra())) <==> e in exercises && e.isExtra != Some(true)
    ensures forall e :: e in Seqs.Filter(exercises, IsExtra()) <==> e in exercises && e.isExtra == Some(true)
  {
    Seqs.FilterComplementMultiset(exercises, IsExtra());
    forall e ensures e in Seqs.Filter(exercises, IsExtra()) <==> e in exercises && e.isExtra == Some(true) {
      Seqs.FilterMember(exercises, IsExtra(), e);
    }
    forall e ensures e in Seqs.Filter(exercises, Seqs.Not(IsExtra())) <==> e in exercises && e.isExtra != Some(true) {
      Seqs.FilterMember(exercises, Seqs.Not(IsExtra()), e);
    }
  }

  /** With the service's exercises, a student gets ex-1 and ex-3 as regular work and ex-2 as extra. */
  lemma SeedStudentExercises(user: User)
    requires user.role == StudentRole
    ensures RoleSpecificData(user).exercises == [MockExercises[0], MockExercises[2]]
    ensures RoleSpecificData(user).extraExercises == [MockExercises[1]]
  {
    var s := MockExercises;
    assert s[1..][1..] == [s[2]] && [s[2]][1..] == [];
  }
}
