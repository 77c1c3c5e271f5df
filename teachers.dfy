/** A teacher's class list (src/lib/firebase/teachers.ts):
    `addStudentToTeacher` and `removeStudentFromTeacher` over the teacher
    collection, each a read of the teacher followed by an `updateTeacher`
    write that also stamps `updatedAt`. */
module Teachers {
  import opened Wrappers
  import opened Seqs
  import opened Types

  datatype TeacherError = TeacherNotFound

  /** The class list after adding `studentId`: unchanged when it is already
      there, otherwise the id appended at the end. */
  function WithStudent(ids: seq<StudentId>, studentId: StudentId): (r: seq<StudentId>)
    ensures studentId in r
    ensures forall x :: x in r <==> x in ids || x == studentId
    ensures |ids| <= |r| <= |ids| + 1 && r[..|ids|] == ids
    ensures studentId in ids <==> r == ids
  {
    if studentId in ids then ids else ids + [studentId]
  }

  /** The class list after removing `studentId`: every occurrence goes,
      the other ids stay in order. */
  function WithoutStudent(ids: seq<StudentId>, studentId: StudentId): (r: seq<StudentId>)
    ensures studentId !in r
    ensures forall x :: x in r <==> x in ids && x != studentId
    ensures IsSubsequence(r, ids)
    ensures forall x :: x != studentId ==> multiset(r)[x] == multiset(ids)[x]
  {
    FilterMembership(ids, (x: StudentId) => x != studentId);
    FilterMultiplicity(ids, (x: StudentId) => x != studentId);
    FilterIsSubsequence(ids, (x: StudentId) => x != studentId);
    Filter(ids, (x: StudentId) => x != studentId)
  }

  /** Adding twice is adding once. */
  lemma AddIdempotent(ids: seq<StudentId>, studentId: StudentId)
    ensures WithStudent(WithStudent(ids, studentId), studentId) == WithStudent(ids, studentId)
  {
  }

  /** Adding never introduces a duplicate. */
  lemma AddKeepsDistinct(ids: seq<StudentId>, studentId: StudentId)
    requires Distinct(ids)
    ensures Distinct(WithStudent(ids, studentId))
  {
    if studentId !in ids {
      DistinctConcat(ids, [studentId]);
    }
  }

  /** Removing an id that is not there changes nothing. */
  lemma {:induction false} RemoveAbsent(ids: seq<StudentId>, studentId: StudentId)
    requires studentId !in ids
    ensures WithoutStudent(ids, studentId) == ids
  {
    FilterKeepsAll(ids, (x: StudentId) => x != studentId);
  }

  /** Removing an id that was just added restores the list it was added to
      (less any copies of the id it already held). */
  lemma {:induction false} RemoveUndoesAdd(ids: seq<StudentId>, studentId: StudentId)
    ensures WithoutStudent(WithStudent(ids, studentId), studentId) == WithoutStudent(ids, studentId)
  {
    if studentId !in ids {
      var p := (x: StudentId) => x != studentId;
      FilterConcat(ids, [studentId], p);
      assert Filter([studentId], p) == [];
    }
  }

  /** Removing keeps a class list free of duplicates. */
  lemma {:induction false} RemoveKeepsDistinct(ids: seq<StudentId>, studentId: StudentId)
    requires Distinct(ids)
    ensures Distinct(WithoutStudent(ids, studentId))
  {
    if ids != [] {
      var p := (x: StudentId) => x != studentId;
      assert Distinct(ids[1..]) by {
        forall i, j | 0 <= i < j < |ids[1..]| ensures ids[1..][i] != ids[1..][j] {
          assert ids[1..][i] == ids[i + 1] && ids[1..][j] == ids[j + 1];
        }
      }
      RemoveKeepsDistinct(ids[1..], studentId);
      if p(ids[0]) {
        assert ids[0] !in ids[1..];
        assert ids[0] !in WithoutStudent(ids[1..], studentId);
        DistinctConcat([ids[0]], WithoutStudent(ids[1..], studentId));
      }
    }
  }

  /** The `teachers` collection. */
  class TeacherStore {
    var teachers: map<TeacherId, Teacher>

    constructor (existing: map<TeacherId, Teacher>)
      ensures teachers == existing
    {
      teachers := existing;
    }

    /** `updateTeacher(teacherId, { studentIds })`: writes the list and
        stamps the write time `now`. */
    method UpdateStudentIds(teacherId: TeacherId, ids: seq<StudentId>, now: nat)
      requires teacherId in teachers
      modifies this
      ensures teachers == old(teachers)[teacherId := old(teachers)[teacherId].(studentIds := ids, updatedAt := now)]
    {
      teachers := teachers[teacherId := teachers[teacherId].(studentIds := ids, updatedAt := now)];
    }

    /** `addStudentToTeacher(teacherId, studentId)` at time `now`. A student
        already in the class causes no write at all, so `updatedAt` keeps
        its value. */
    method AddStudentToTeacher(teacherId: TeacherId, studentId: StudentId, now: nat)
      returns (r: Result<(), TeacherError>)
      modifies this
      ensures teacherId !in old(teachers) ==> r == Failure(TeacherNotFound) && teachers == old(teachers)
      ensures teacherId in old(teachers) ==> r == Success(())
      ensures teacherId in old(teachers) && studentId in old(teachers)[teacherId].studentIds ==>
                teachers == old(teachers)
      ensures teacherId in old(teachers) && studentId !in old(teachers)[teacherId].studentIds ==>
                teachers == old(teachers)[teacherId := old(teachers)[teacherId].(
                  studentIds := WithStudent(old(teachers)[teacherId].studentIds, studentId), updatedAt := now)]
    {
      if teacherId !in teachers {
        return Failure(TeacherNotFound);
      }
      var teacher := teachers[teacherId];
      if studentId !in teacher.studentIds {
        UpdateStudentIds(teacherId, teacher.studentIds + [studentId], now);
      }
      r := Success(());
    }

    /** `removeStudentFromTeacher(teacherId, studentId)` at time `now`: the
        filtered list is written even when the id was not there. */
    method RemoveStudentFromTeacher(teacherId: TeacherId, studentId: StudentId, now: nat)
      returns (r: Result<(), TeacherError>)
      modifies this
      ensures teacherId !in old(teachers) ==> r == Failure(TeacherNotFound) && teachers == old(teachers)
      ensures teacherId in old(teachers) ==>
                r == Success(())
                && teachers == old(teachers)[teacherId := old(teachers)[teacherId].(
                     studentIds := WithoutStudent(old(teachers)[teacherId].studentIds, studentId), updatedAt := now)]
    {
      if teacherId !in teachers {
        return Failure(TeacherNotFound);
      }
      var teacher := teachers[teacherId];
      var remaining := Filter(teacher.studentIds, (id: StudentId) => id != studentId);
      UpdateStudentIds(teacherId, remaining, now);
      r := Success(());
    }
  }
}
