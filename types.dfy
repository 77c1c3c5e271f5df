/** The records of the Firestore data model (src/types/firebase.ts) that the
    modelled operations read and write. Timestamps, user ids, avatars' image
    data and other fields no modelled operation looks at are left out. */
module Types {
  import opened Seqs

  type StudentId = string
  type PlanId = string
  type TeacherId = string

  datatype RiskLevel = Low | Medium | High

  /** A student's performance record. Percentages and scores are JavaScript
      numbers, so they are reals here; assignment counts are whole numbers. */
  datatype Student = Student(
    studentId: StudentId,
    name: string,
    email: string,
    avatar: string,
    course: string,
    attendancePercentage: real,
    quizScores: seq<real>,
    assignmentsSubmitted: nat,
    totalAssignments: nat,
    engagementScore: real,
    riskLevel: RiskLevel)

  /** One day of a recovery plan's weekly schedule. */
  datatype ScheduleEntry = ScheduleEntry(day: string, focus: string, duration: string, completed: bool)

  datatype ResourceType = VideoCourse | Exercises | Community | Mentorship | Article | Book

  datatype Resource = Resource(title: string, kind: ResourceType, url: string, description: string)

  /** The part of a recovery plan that a generator produces (the fields
      other than id, owner, provenance and lifecycle). */
  datatype PlanContent = PlanContent(
    weakTopics: seq<string>,
    dailyStudyHours: int,
    schedule: seq<ScheduleEntry>,
    resources: seq<Resource>,
    strategies: seq<string>)

  /** `generatedBy` together with `aiModel`: an AI plan always names its model. */
  datatype Provenance = Manual | Ai(model: string)

  /** `progressPercentage`: a number, or NaN when it was computed as 0 / 0. */
  datatype Progress = Percent(value: real) | NotANumber

  /** A stored recovery plan. */
  datatype Plan = Plan(
    studentId: StudentId,
    riskLevel: RiskLevel,
    content: PlanContent,
    provenance: Provenance,
    isActive: bool,
    progress: Progress)

  /** A stored teacher; `updatedAt` is the time of the last write. */
  datatype Teacher = Teacher(name: string, courses: seq<string>, studentIds: seq<StudentId>, updatedAt: nat)

  /** `students.filter(s => s.riskLevel === level)`. */
  function AtLevel(students: seq<Student>, level: RiskLevel): (r: seq<Student>)
    ensures forall s :: s in r <==> s in students && s.riskLevel == level
  {
    FilterMembership(students, (s: Student) => s.riskLevel == level);
    Filter(students, (s: Student) => s.riskLevel == level)
  }

  /** Every student is counted at exactly one level. */
  lemma {:induction false} LevelCountsPartition(students: seq<Student>)
    ensures |AtLevel(students, High)| + |AtLevel(students, Medium)| + |AtLevel(students, Low)| == |students|
  {
    if students != [] {
      LevelCountsPartition(students[1..]);
    }
  }
}
