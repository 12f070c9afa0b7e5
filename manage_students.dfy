/**
 * The roster editor of one group: a list of student ids that starts as the
 * group's roster and is edited by adding (from the list or by typed id) and
 * removing, with the derived lists of available and current students and
 * the change detection that enables saving.
 */
module ManageStudents {
  import opened Students
  import Text
  import Seqs

  /** `ids.includes(student.id)`. */
  function InIds(ids: seq<string>): Student -> bool {
    (s: Student) => s.id in ids
  }

  /** `id => id !== removed`. */
  function Other(removed: string): string -> bool {
    (id: string) => id != removed
  }

  /** The seed students not in the list, in seed order. */
  function Available(ids: seq<string>): (r: seq<Student>)
    ensures forall s :: s in r <==> s in MockStudents && s.id !in ids
  {
    var r := Seqs.Filter(MockStudents, Seqs.Not(InIds(ids)));
    assert forall s :: s in r <==> s in MockStudents && s.id !in ids by {
      forall s ensures s in r <==> s in MockStudents && s.id !in ids {
        Seqs.FilterMember(MockStudents, Seqs.Not(InIds(ids)), s);
      }
    }
    r
  }

  /** The seed students in the list, in seed order (whatever order they were added in). */
  function Current(ids: seq<string>): (r: seq<Student>)
    ensures forall s :: s in r <==> s in MockStudents && s.id in ids
  {
    var r := Seqs.Filter(MockStudents, InIds(ids));
    assert forall s :: s in r <==> s in MockStudents && s.id in ids by {
      forall s ensures s in r <==> s in MockStudents && s.id in ids {
        Seqs.FilterMember(MockStudents, InIds(ids), s);
      }
    }
    r
  }

  /** Every seed student is either available or current, never both. */
  lemma AvailableCurrentPartition(ids: seq<string>)
    ensures multiset(Available(ids)) + multiset(Current(ids)) == multiset(MockStudents)
    ensures |Available(ids)| + |Current(ids)| == |MockStudents|
    ensures forall s :: s in MockStudents ==> (s in Current(ids) <==> s.id in ids) && (s in Available(ids) <==> s.id !in ids)
  {
    Partition(MockStudents, ids);
  }

  lemma Partition(all: seq<Student>, ids: seq<string>)
    ensures multiset(Seqs.Filter(all, Seqs.Not(InIds(ids)))) + multiset(Seqs.Filter(all, InIds(ids))) == multiset(all)
    ensures |Seqs.Filter(all, Seqs.Not(InIds(ids)))| + |Seqs.Filter(all, InIds(ids))| == |all|
    ensures forall s :: s in all ==>
              (s in Seqs.Filter(all, InIds(ids)) <==> s.id in ids) && (s in Seqs.Filter(all, Seqs.Not(InIds(ids))) <==> s.id !in ids)
  {
    Seqs.FilterComplementMultiset(all, InIds(ids));
    Seqs.FilterComplementLength(all, InIds(ids));
    forall s | s in all
      ensures (s in Seqs.Filter(all, InIds(ids)) <==> s.id in ids) && (s in Seqs.Filter(all, Seqs.Not(InIds(ids))) <==> s.id !in ids)
    {
      Seqs.FilterMember(all, InIds(ids), s);
      Seqs.FilterMember(all, Seqs.Not(InIds(ids)), s);
    }
  }

  /** The search over available students: the lowered name contains the lowered term, or the id contains the raw term. */
  function Found(searchTerm: string): Student -> bool {
    (s: Student) => Seqs.Contains(Text.ToLower(s.name), Text.ToLower(searchTerm)) || Seqs.Contains(s.id, searchTerm)
  }

  function FilteredAvailable(ids: seq<string>, searchTerm: string): seq<Student> {
    Seqs.Filter(Available(ids), Found(searchTerm))
  }

  /** A student is offered exactly when it is an available seed student matching the search. */
  lemma FilteredAvailableMember(ids: seq<string>, searchTerm: string, s: Student)
    ensures s in FilteredAvailable(ids, searchTerm)
        <==> && s in MockStudents && s.id !in ids
             && (Seqs.Contains(Text.ToLower(s.name), Text.ToLower(searchTerm)) || Seqs.Contains(s.id, searchTerm))
  {
    Seqs.FilterMember(Available(ids), Found(searchTerm), s);
    Seqs.FilterMember(MockStudents, Seqs.Not(InIds(ids)), s);
  }

  /** `hasChanges`: a different length, or some id that is not in the group's roster. */
  predicate HasChanges(ids: seq<string>, group: Group) {
    |ids| != |group.students| || !(forall id :: id in ids ==> id in Ids(group.students))
  }

  function Elements(s: seq<string>): set<string> {
    set x | x in s
  }

  lemma {:induction false} NoDupsCard(s: seq<string>)
    requires Seqs.NoDups(s)
    ensures |Elements(s)| == |s|
  {
    if s != [] {
      var t := s[1..];
      assert Seqs.NoDups(t) by {
        forall i, j | 0 <= i < j < |t| ensures t[i] != t[j] {
          assert t[i] == s[i + 1] && t[j] == s[j + 1];
        }
      }
      NoDupsCard(t);
      assert s[0] !in t by {
        forall i | 0 <= i < |t| ensures t[i] != s[0] {
          assert t[i] == s[i + 1];
        }
      }
      assert Elements(s) == Elements(t) + {s[0]};
    }
  }

  /**
   * When neither list repeats an id, the editor reports no change exactly
   * when the edited list holds the same ids as the roster.
   */
  lemma NoChangesIffSameIds(ids: seq<string>, group: Group)
    requires Seqs.NoDups(ids) && Seqs.NoDups(Ids(group.students))
    ensures !HasChanges(ids, group) <==> Elements(ids) == Elements(Ids(group.students))
  {
    var g := Ids(group.students);
    NoDupsCard(ids);
    NoDupsCard(g);
    if !HasChanges(ids, group) {
      assert Elements(ids) <= Elements(g);
      assert |Elements(g) - Elements(ids)| == |Elements(g)| - |Elements(ids)| == 0;
      assert Elements(g) - Elements(ids) == {};
    }
    if Elements(ids) == Elements(g) {
      forall id | id in ids ensures id in g {
        assert id in Elements(ids);
      }
    }
  }

  /** Removing an id that was just appended gives back the list before the append. */
  lemma {:induction false} AddFreshThenRemove(ids: seq<string>, id: string)
    requires id !in ids
    ensures Seqs.Filter(ids + [id], Other(id)) == ids
  {
    Seqs.FilterAppend(ids, [id], Other(id));
    Seqs.FilterAll(ids, Other(id));
    assert Seqs.Filter([id], Other(id)) == [];
  }

  /** Removal drops every occurrence of the id and keeps the others in order. */
  lemma RemoveSpec(ids: seq<string>, id: string)
    ensures id !in Seqs.Filter(ids, Other(id))
    ensures forall x :: x != id ==> (x in Seqs.Filter(ids, Other(id)) <==> x in ids)
    ensures Seqs.IsSubseq(Seqs.Filter(ids, Other(id)), ids)
  {
    Seqs.FilterIsSubseq(ids, Other(id));
    Seqs.FilterMember(ids, Other(id), id);
    forall x | x != id ensures x in Seqs.Filter(ids, Other(id)) <==> x in ids {
      Seqs.FilterMember(ids, Other(id), x);
    }
  }

  /** The state of the editor for one group. */
  class RosterEditor {
    const group: Group
    var studentId: string
    var searchTerm: string
    var currentStudentIds: seq<string>

    /** The editor opens on the group's roster, in roster order, with empty inputs. */
    constructor (group: Group)
      ensures this.group == group
      ensures currentStudentIds == Ids(group.students)
      ensures studentId == "" && searchTerm == ""
    {
      this.group := group;
      studentId := "";
      searchTerm := "";
      currentStudentIds := Ids(group.students);
    }

    /** The id input's `onChange`. */
    method SetStudentId(value: string)
      modifies this
      ensures studentId == value
      ensures currentStudentIds == old(currentStudentIds) && searchTerm == old(searchTerm)
    {
      studentId := value;
    }

    /** The search input's `onChange`. */
    method SetSearchTerm(value: string)
      modifies this
      ensures searchTerm == value
      ensures currentStudentIds == old(currentStudentIds) && studentId == old(studentId)
    {
      searchTerm := value;
    }

    /** `handleAddStudent`: append a known seed id and clear the id input; ignore an unknown one. */
    method AddStudent(id: string)
      modifies this
      ensures searchTerm == old(searchTerm)
      ensures id in Ids(MockStudents) ==> currentStudentIds == old(currentStudentIds) + [id] && studentId == ""
      ensures id !in Ids(MockStudents) ==> currentStudentIds == old(currentStudentIds) && studentId == old(studentId)
    {
      if id in Ids(MockStudents) {
        currentStudentIds := currentStudentIds + [id];
        studentId := "";
      }
    }

    /** Whether the "add" button is enabled: a non-blank id that is not yet in the list. */
    function AddByIdEnabled(): bool
      reads this
    {
      Text.Trim(studentId) != "" && Text.Trim(studentId) !in currentStudentIds
    }

    /** `handleAddById`: add the trimmed input when it is non-empty and not yet listed. */
    method AddById()
      modifies this
      ensures searchTerm == old(searchTerm)
      ensures var t := Text.Trim(old(studentId));
              if t != "" && t !in old(currentStudentIds) && t in Ids(MockStudents)
              then currentStudentIds == old(currentStudentIds) + [t] && studentId == ""
              else currentStudentIds == old(currentStudentIds) && studentId == old(studentId)
      ensures Seqs.NoDups(old(currentStudentIds)) ==> Seqs.NoDups(currentStudentIds)
    {
      var trimmed := Text.Trim(studentId);
      if trimmed != "" && trimmed !in currentStudentIds {
        ghost var before := currentStudentIds;
        AddStudent(trimmed);
        if Seqs.NoDups(before) {
          Seqs.NoDupsSnoc(before, trimmed);
        }
      }
    }

    /** `handleRemoveStudent`: drop every occurrence of the id. */
    method RemoveStudent(id: string)
      modifies this
      ensures currentStudentIds == Seqs.Filter(old(currentStudentIds), Other(id))
      ensures studentId == old(studentId) && searchTerm == old(searchTerm)
    {
      currentStudentIds := Seqs.Filter(currentStudentIds, Other(id));
    }

    /** `handleSave`: the group id and the edited list passed to `onUpdateGroup`. */
    method Save() returns (groupId: string, studentIds: seq<string>)
      ensures groupId == group.id && studentIds == currentStudentIds
      ensures studentIds == Ids(group.students) ==> !HasChanges(studentIds, group)
    {
      groupId, studentIds := group.id, currentStudentIds;
    }

    /** Adding a seed id that is not listed and removing it again leaves the list as it was. */
    method AddThenRemove(id: string)
      requires id in Ids(MockStudents) && id !in currentStudentIds
      modifies this
      ensures currentStudentIds == old(currentStudentIds)
    {
      AddStudent(id);
      RemoveStudent(id);
      AddFreshThenRemove(old(currentStudentIds), id);
    }
  }
}
