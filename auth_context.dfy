/** The demo sign-in state (src/contexts/AuthContext.tsx): `login`,
    `logout`, `isAuthenticated` and `currentStudent` of `AuthProvider`, with
    the session-storage copy of the user kept as a mirror field. */
module AuthContext {
  import opened Wrappers
  import opened Seqs
  import opened Strings
  import opened Types
  import MockStudents

  datatype Role = StudentRole | TeacherRole

  /** A signed-in user; only students carry a student id. */
  datatype User = User(email: string, role: Role, studentId: Option<StudentId>)

  /** The id a student is given when no demo account matches. */
  const DefaultStudentId: StudentId := "STU001"

  /** `mockUsers.students.find(...)`: the first account whose email equals
      `email` ignoring case. */
  function MatchedStudent(accounts: seq<Student>, email: string): (r: Option<Student>)
    ensures r.Some? ==> r.value in accounts && ToLower(r.value.email) == ToLower(email)
    ensures r.None? <==> forall i :: 0 <= i < |accounts| ==> ToLower(accounts[i].email) != ToLower(email)
  {
    Find(accounts, (s: Student) => ToLower(s.email) == ToLower(email))
  }

  /** `matchedStudent?.studentId || 'STU001'`: an empty id falls back too. */
  function StudentIdFor(accounts: seq<Student>, email: string): (r: StudentId)
    ensures var m := MatchedStudent(accounts, email);
      && (m.Some? && m.value.studentId != "" ==> r == m.value.studentId)
      && (m.None? ==> r == DefaultStudentId)
    ensures r != ""
  {
    var m := MatchedStudent(accounts, email);
    if m.Some? && m.value.studentId != "" then m.value.studentId else DefaultStudentId
  }

  /** The user a successful login creates. */
  function NewUser(accounts: seq<Student>, email: string, role: Role): (r: User)
    ensures r.email == email && r.role == role
    ensures r.studentId.Some? <==> role == StudentRole
    ensures role == StudentRole ==> r.studentId == Some(StudentIdFor(accounts, email))
  {
    match role
    case TeacherRole => User(email, TeacherRole, None)
    case StudentRole => User(email, StudentRole, Some(StudentIdFor(accounts, email)))
  }

  /** `mockStudents.find(s => s.studentId === id)`. */
  function StudentById(accounts: seq<Student>, id: StudentId): (r: Option<Student>)
    ensures r.Some? ==> r.value in accounts && r.value.studentId == id
    ensures r.None? <==> forall i :: 0 <= i < |accounts| ==> accounts[i].studentId != id
  {
    Find(accounts, (s: Student) => s.studentId == id)
  }

  /** `currentStudent`: the record of a student user with a non-empty id,
      looked up by that id; nothing for teachers and signed-out users. */
  function CurrentStudentOf(accounts: seq<Student>, user: Option<User>): (r: Option<Student>)
    ensures r.Some? ==> user.Some? && user.value.role == StudentRole && user.value.studentId.Some?
                        && r.value in accounts && r.value.studentId == user.value.studentId.value
  {
    if user.Some? && user.value.role == StudentRole && user.value.studentId.Some? && user.value.studentId.value != ""
    then StudentById(accounts, user.value.studentId.value)
    else None
  }

  /** The demo accounts start with STU001, the fallback id. */
  predicate StartsWithDefault(accounts: seq<Student>)
  {
    |accounts| > 0 && accounts[0].studentId == DefaultStudentId
  }

  lemma RosterStartsWithDefault()
    ensures StartsWithDefault(MockStudents.Roster)
  {
    assert MockStudents.Roster[0] == MockStudents.Stu001;
  }

  /** A student login always resolves to a record: a matched account's id
      is an account id, and the fallback id is the first account's. */
  lemma StudentLoginHasRecord(accounts: seq<Student>, email: string)
    requires StartsWithDefault(accounts)
    ensures CurrentStudentOf(accounts, Some(NewUser(accounts, email, StudentRole))).Some?
    ensures MatchedStudent(accounts, email).None? ==>
              CurrentStudentOf(accounts, Some(NewUser(accounts, email, StudentRole))) == Some(accounts[0])
  {
    var m := MatchedStudent(accounts, email);
    if m.Some? && m.value.studentId != "" {
      var i :| 0 <= i < |accounts| && accounts[i] == m.value;
      assert StudentById(accounts, m.value.studentId).Some?;
    } else {
      assert FindIndex(accounts, (s: Student) => s.studentId == DefaultStudentId) == Some(0);
    }
  }

  /** A teacher never has a current student. */
  lemma TeacherHasNoStudent(accounts: seq<Student>, email: string)
    ensures CurrentStudentOf(accounts, Some(NewUser(accounts, email, TeacherRole))) == None
  {
  }

  /** The context's state: `user`, and `stored`, the value kept under
      `dropoutguard_user` in session storage; `accounts` are the demo
      student accounts (`mockStudents`). */
  class AuthProvider {
    var user: Option<User>
    var stored: Option<User>
    const accounts: seq<Student>

    /** The fallback id names an account. */
    predicate Valid()
      reads this
    {
      StartsWithDefault(accounts)
    }

    /** The state and the stored session agree. */
    predicate Mirrored()
      reads this
    {
      user == stored
    }

    /** `useState` initialised from the stored session. */
    constructor (session: Option<User>)
      ensures user == session && stored == session && accounts == MockStudents.Roster
      ensures Valid() && Mirrored()
    {
      user := session;
      stored := session;
      accounts := MockStudents.Roster;
      RosterStartsWithDefault();
    }

    /** `isAuthenticated`. */
    function IsAuthenticated(): bool
      reads this
    {
      user.Some?
    }

    /** `currentStudent`. */
    function CurrentStudent(): Option<Student>
      reads this
    {
      CurrentStudentOf(accounts, user)
    }

    /** `login(email, password, role)`: a password of fewer than four
        characters is refused without touching the state; otherwise the new
        user is set and stored. */
    method Login(email: string, password: string, role: Role) returns (ok: bool)
      requires Valid()
      modifies this
      ensures ok <==> |password| >= 4
      ensures !ok ==> user == old(user) && stored == old(stored)
      ensures ok ==> user == Some(NewUser(accounts, email, role)) && stored == user
      ensures ok ==> IsAuthenticated() && Mirrored()
      ensures ok && role == StudentRole ==> CurrentStudent().Some?
    {
      if |password| < 4 {
        return false;
      }
      var newUser: User;
      if role == TeacherRole {
        newUser := User(email, TeacherRole, None);
      } else {
        var studentId := StudentIdFor(accounts, email);
        newUser := User(email, StudentRole, Some(studentId));
        StudentLoginHasRecord(accounts, email);
      }
      user := Some(newUser);
      stored := Some(newUser);
      ok := true;
    }

    /** `logout()`: clears the user and the stored session. */
    method Logout()
      modifies this
      ensures user == None && stored == None
      ensures !IsAuthenticated() && CurrentStudent() == None && Mirrored()
    {
      user := None;
      stored := None;
    }
  }
}
