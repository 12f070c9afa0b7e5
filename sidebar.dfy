/**
 * The sidebar shared by the three dashboards: the menu of each role, the
 * name shown in the header (the given name, or the role's default) with its
 * role-specific short form, and the highlighted menu item.
 */
module Sidebar {
  import opened Wrappers
  import opened AuthApi
  import Text
  import Seqs

  /** The sidebar is only given the three known roles. */
  type UserRole = r: Role | !r.OtherRole? witness StudentRole

  datatype MenuItem = MenuItem(id: string, caption: string)

  /** `menuConfig` (icons are not modelled). */
  function Menu(role: UserRole): (items: seq<MenuItem>)
    ensures |items| > 0 && items[0].id == "inicio"
  {
    match role
    case StudentRole => [MenuItem("inicio", "Inicio"), MenuItem("ejercicios", "Ejercicios"), MenuItem("logros", "Logros")]
    case TeacherRole => [MenuItem("inicio", "Inicio"), MenuItem("grupos", "Mis Grupos")]
    case DirectorRole => [
      MenuItem("inicio", "Inicio"), MenuItem("resumen", "Resumen"), MenuItem("departamentos", "Departamentos"),
      MenuItem("clases", "Clases"), MenuItem("reportes", "Reportes")]
  }

  function MenuIds(role: UserRole): (ids: seq<string>)
    ensures |ids| == |Menu(role)|
    ensures forall i :: 0 <= i < |ids| ==> ids[i] == Menu(role)[i].id
  {
    seq(|Menu(role)|, i requires 0 <= i < |Menu(role)| => Menu(role)[i].id)
  }

  /** The menu ids of each role, in order; within a role no id repeats. */
  lemma MenuIdsTable(role: UserRole)
    ensures role == StudentRole ==> MenuIds(role) == ["inicio", "ejercicios", "logros"]
    ensures role == TeacherRole ==> MenuIds(role) == ["inicio", "grupos"]
    ensures role == DirectorRole ==> MenuIds(role) == ["inicio", "resumen", "departamentos", "clases", "reportes"]
    ensures Seqs.NoDups(MenuIds(role))
  {
    var ids := MenuIds(role);
    if role == StudentRole {
      assert ids == ["inicio", "ejercicios", "logros"];
    } else if role == TeacherRole {
      assert ids == ["inicio", "grupos"];
    } else {
      assert ids == ["inicio", "resumen", "departamentos", "clases", "reportes"];
    }
  }

  /** The header title and default name of each role (`roleConfig`). */
  function Title(role: UserRole): string {
    match role
    case StudentRole => "Panel del Estudiante"
    case TeacherRole => "Panel del Maestro"
    case DirectorRole => "Panel del Director"
  }

  function DefaultName(role: UserRole): string {
    match role
    case StudentRole => "Alumno Invitado"
    case TeacherRole => "Prof. Elena Martínez"
    case DirectorRole => "Dr. Roberto Hernández"
  }

  /** `userName || config.defaultName`: an absent or empty name gives the role's default. */
  function DisplayName(userName: Option<string>, role: UserRole): (name: string)
    ensures userName.Some? && userName.value != "" ==> name == userName.value
    ensures userName.None? || userName.value == "" ==> name == DefaultName(role)
    ensures name != ""
  {
    if userName.Some? && userName.value != "" then userName.value else DefaultName(role)
  }

  /**
   * `config.displayName(displayName)`: the first space-separated piece for a
   * student; for a teacher the second piece unless it is missing or empty,
   * then the first; for a director the whole name.
   */
  function ShortName(role: UserRole, name: string): string {
    var pieces := Text.Split(name, ' ');
    match role
    case StudentRole => pieces[0]
    case TeacherRole => if |pieces| > 1 && pieces[1] != "" then pieces[1] else pieces[0]
    case DirectorRole => name
  }

  /**
   * The first piece of a split is the longest prefix without a space: it is
   * the whole string, or it is followed by a space.
   */
  lemma FirstPiece(s: string)
    ensures var t := Text.Split(s, ' ')[0];
            && ' ' !in t && |t| <= |s| && s[..|t|] == t
            && (|t| == |s| || s[|t|] == ' ')
  {
    var parts := Text.Split(s, ' ');
    Text.SplitJoin(s, ' ');
    if |parts| > 1 {
      assert s == parts[0] + [' '] + Text.Join(parts[1..], ' ');
      assert s[..|parts[0]|] == parts[0];
    }
  }

  /** A student's short name is the display name up to its first space. */
  lemma StudentShortName(name: string)
    ensures var t := ShortName(StudentRole, name);
            && ' ' !in t && |t| <= |name| && name[..|t|] == t
            && (|t| == |name| || name[|t|] == ' ')
  {
    FirstPiece(name);
  }

  /** A short name never contains a space, except a director's, which is the whole name. */
  lemma ShortNameHasNoSpace(role: UserRole, name: string)
    requires role != DirectorRole
    ensures ' ' !in ShortName(role, name)
  {
    var pieces := Text.Split(name, ' ');
    assert pieces[0] in pieces;
    if |pieces| > 1 {
      assert pieces[1] in pieces;
    }
  }

  /** A director's short name is the display name itself. */
  lemma DirectorShortName(name: string)
    ensures ShortName(DirectorRole, name) == name
  {
  }

  /** The default student name shortens to "Alumno". */
  lemma DefaultStudentShortName()
    ensures ShortName(StudentRole, DefaultName(StudentRole)) == "Alumno"
  {
    assert "Alumno Invitado" == "Alumno" + " " + "Invitado";
    SplitAtSpace("Alumno", "Invitado");
  }

  /** A teacher's short name is the word after the first space, when there is one. */
  lemma TeacherShortName(w: string, rest: string)
    requires ' ' !in w
    requires Text.Split(rest, ' ')[0] != ""
    ensures ShortName(TeacherRole, w + " " + rest) == Text.Split(rest, ' ')[0]
  {
    SplitAtSpace(w, rest);
  }

  /** The default teacher name shortens to its second piece, "Elena". */
  lemma DefaultTeacherShortName()
    ensures ShortName(TeacherRole, DefaultName(TeacherRole)) == "Elena"
  {
    ElenaFirst();
    TeacherDefaultParts();
    TeacherShortName("Prof.", "Elena Martínez");
  }

  lemma TeacherDefaultParts()
    ensures DefaultName(TeacherRole) == "Prof." + " " + "Elena Martínez"
  {
  }

  lemma ElenaFirst()
    ensures Text.Split("Elena Martínez", ' ')[0] == "Elena"
  {
    assert "Elena Martínez" == "Elena" + " " + "Martínez";
    SplitAtSpace("Elena", "Martínez");
  }

  /** Splitting a word followed by a space and the rest. */
  lemma {:induction false} SplitAtSpace(w: string, rest: string)
    requires ' ' !in w
    ensures Text.Split(w + " " + rest, ' ') == [w] + Text.Split(rest, ' ')
    decreases |w|
  {
    if w == [] {
      assert w + " " + rest == [' '] + rest;
      assert (w + " " + rest)[1..] == rest;
    } else {
      SplitAtSpace(w[1..], rest);
      assert (w + " " + rest)[1..] == w[1..] + " " + rest;
      assert (w + " " + rest)[0] == w[0];
      assert [w[0]] + w[1..] == w;
    }
  }

  /** `activeSection === item.id`. */
  predicate IsActive(activeSection: string, item: MenuItem) {
    activeSection == item.id
  }

  /** At most one item of a menu is highlighted, because a menu's ids are distinct. */
  lemma AtMostOneActive(role: UserRole, activeSection: string)
    ensures forall i, j ::
              (0 <= i < |Menu(role)| && 0 <= j < |Menu(role)| &&
               IsActive(activeSection, Menu(role)[i]) && IsActive(activeSection, Menu(role)[j])) ==> i == j
  {
    MenuIdsTable(role);
    var ids := MenuIds(role);
    forall i, j | 0 <= i < |Menu(role)| && 0 <= j < |Menu(role)| &&
        IsActive(activeSection, Menu(role)[i]) && IsActive(activeSection, Menu(role)[j])
      ensures i == j
    {
      assert ids[i] == ids[j];
    }
  }

  /** The home item is highlighted on the home section for every role. */
  lemma HomeIsActiveOnHome(role: UserRole)
    ensures IsActive("inicio", Menu(role)[0])
  {
  }
}
