/** The demo roster and its helpers (src/data/mockStudents.ts). The roster
    is also the data the seeding script writes. `lastActive` and the random
    `weeklyProgress` series are not modelled. */
module MockStudents {
  import opened Wrappers
  import opened Seqs
  import opened Types
  import Students
  import RecoveryPlans

  /** The ten demo students: two at High, four at Medium, four at Low. */
  const Stu001: Student :=
    Student("STU001", "Marcus Chen", "marcus.chen@university.edu", "MC", "Data Structures",
      45.0, [42.0, 38.0, 35.0, 40.0, 32.0, 28.0, 25.0, 30.0], 3, 10, 25.0, High)
  const Stu002: Student :=
    Student("STU002", "Priya Patel", "priya.patel@university.edu", "PP", "Machine Learning Basics",
      52.0, [55.0, 48.0, 42.0, 38.0, 35.0, 30.0, 28.0, 25.0], 4, 10, 30.0, High)
  const Stu003: Student :=
    Student("STU003", "Emma Johnson", "emma.johnson@university.edu", "EJ", "Web Development",
      68.0, [65.0, 58.0, 62.0, 55.0, 60.0, 52.0, 58.0, 55.0], 6, 10, 55.0, Medium)
  const Stu004: Student :=
    Student("STU004", "David Kim", "david.kim@university.edu", "DK", "Computer Science 101",
      72.0, [70.0, 62.0, 58.0, 65.0, 55.0, 60.0, 52.0, 58.0], 7, 10, 58.0, Medium)
  const Stu005: Student :=
    Student("STU005", "Sofia Rodriguez", "sofia.rodriguez@university.edu", "SR", "Database Systems",
      65.0, [58.0, 55.0, 60.0, 52.0, 58.0, 55.0, 50.0, 55.0], 6, 10, 52.0, Medium)
  const Stu006: Student :=
    Student("STU006", "Alex Thompson", "alex.thompson@university.edu", "AT", "Data Structures",
      70.0, [62.0, 58.0, 55.0, 60.0, 58.0, 62.0, 55.0, 58.0], 7, 10, 60.0, Medium)
  const Stu007: Student :=
    Student("STU007", "Jessica Liu", "jessica.liu@university.edu", "JL", "Machine Learning Basics",
      95.0, [92.0, 88.0, 95.0, 90.0, 87.0, 93.0, 91.0, 89.0], 10, 10, 92.0, Low)
  const Stu008: Student :=
    Student("STU008", "Ryan O'Connor", "ryan.oconnor@university.edu", "RO", "Web Development",
      88.0, [85.0, 82.0, 88.0, 80.0, 86.0, 84.0, 87.0, 83.0], 9, 10, 85.0, Low)
  const Stu009: Student :=
    Student("STU009", "Aisha Mohammed", "aisha.mohammed@university.edu", "AM", "Computer Science 101",
      92.0, [90.0, 85.0, 92.0, 88.0, 91.0, 87.0, 89.0, 86.0], 10, 10, 88.0, Low)
  const Stu010: Student :=
    Student("STU010", "Tyler Washington", "tyler.washington@university.edu", "TW", "Database Systems",
      90.0, [88.0, 84.0, 90.0, 82.0, 88.0, 85.0, 86.0, 84.0], 9, 10, 82.0, Low)

  const Roster: seq<Student> := [Stu001, Stu002, Stu003, Stu004, Stu005, Stu006, Stu007, Stu008, Stu009, Stu010]

  /** Roster ids are unique. */
  lemma RosterIdsDistinct()
    ensures forall i, j :: 0 <= i < j < |Roster| ==> Roster[i].studentId != Roster[j].studentId
  {
  }

  /** Every roster student has quiz scores and assignments, so the risk
      scorer's fallbacks for empty data never apply to the demo data. */
  lemma RosterHasData()
    ensures forall i :: 0 <= i < |Roster| ==> |Roster[i].quizScores| == 8 && Roster[i].totalAssignments == 10
  {
  }

  // The risk scorer on each demo record. The quiz sum is the one step the
  // verifier needs spelled out.

  /** STU001: every category fires in its worst band. */
  lemma ScoreStu001()
    ensures Students.Assess(Stu001) == Students.Assessment(High, 100,
      ["Low attendance", "Poor quiz performance", "Low assignment completion", "Low engagement"])
  {
    assert Students.Sum(Stu001.quizScores) == 270.0;
  }

  lemma ScoreStu002()
    ensures Students.Assess(Stu002).riskLevel == High && Students.Assess(Stu002).riskScore == 100
  {
    assert Students.Sum(Stu002.quizScores) == 301.0;
  }

  lemma ScoreStu003()
    ensures Students.Assess(Stu003).riskLevel == Medium && Students.Assess(Stu003).riskScore == 50
  {
    assert Students.Sum(Stu003.quizScores) == 465.0;
  }

  lemma ScoreStu004()
    ensures Students.Assess(Stu004).riskLevel == Medium && Students.Assess(Stu004).riskScore == 40
  {
    assert Students.Sum(Stu004.quizScores) == 480.0;
  }

  lemma ScoreStu005()
    ensures Students.Assess(Stu005).riskLevel == Medium && Students.Assess(Stu005).riskScore == 50
  {
    assert Students.Sum(Stu005.quizScores) == 443.0;
  }

  /** STU006: attendance 70 and a quiz average of 58.5 add 15 each. */
  lemma ScoreStu006()
    ensures Students.Assess(Stu006) == Students.Assessment(Low, 30,
      ["Below average attendance", "Below average quiz scores"])
  {
    assert Students.Sum(Stu006.quizScores) == 468.0;
  }

  /** STU007: no category fires. */
  lemma ScoreStu007()
    ensures Students.Assess(Stu007) == Students.Assessment(Low, 0, [])
  {
    assert Students.Sum(Stu007.quizScores) == 725.0;
  }

  lemma ScoreStu008()
    ensures Students.Assess(Stu008).riskLevel == Low && Students.Assess(Stu008).riskScore == 0
  {
    assert Students.Sum(Stu008.quizScores) == 675.0;
  }

  lemma ScoreStu009()
    ensures Students.Assess(Stu009).riskLevel == Low && Students.Assess(Stu009).riskScore == 0
  {
    assert Students.Sum(Stu009.quizScores) == 708.0;
  }

  lemma ScoreStu010()
    ensures Students.Assess(Stu010).riskLevel == Low && Students.Assess(Stu010).riskScore == 0
  {
    assert Students.Sum(Stu010.quizScores) == 687.0;
  }

  /** The stored level of every roster student except STU006 is the level
      the risk scorer assigns; STU006 is stored at Medium but scores 30,
      which is Low. */
  lemma StoredLevelsAgainstScorer(i: nat)
    requires i < |Roster|
    ensures i != 5 <==> Students.Assess(Roster[i]).riskLevel == Roster[i].riskLevel
  {
    if i == 0 { assert Roster[i] == Stu001; ScoreStu001(); }
    else if i == 1 { assert Roster[i] == Stu002; ScoreStu002(); }
    else if i == 2 { assert Roster[i] == Stu003; ScoreStu003(); }
    else if i == 3 { assert Roster[i] == Stu004; ScoreStu004(); }
    else if i == 4 { assert Roster[i] == Stu005; ScoreStu005(); }
    else if i == 5 { assert Roster[i] == Stu006; ScoreStu006(); }
    else if i == 6 { assert Roster[i] == Stu007; ScoreStu007(); }
    else if i == 7 { assert Roster[i] == Stu008; ScoreStu008(); }
    else if i == 8 { assert Roster[i] == Stu009; ScoreStu009(); }
    else { assert Roster[i] == Stu010; ScoreStu010(); }
  }

  /** One day of the demo plan's schedule (no completion flag). */
  datatype Session = Session(day: string, focus: string, duration: string)

  /** A demo plan resource (no description). */
  datatype Link = Link(title: string, kind: string, url: string)

  /** The demo `RecoveryPlan` shape. */
  datatype MockPlan = MockPlan(
    weakTopics: seq<string>,
    dailyStudyHours: nat,
    schedule: seq<Session>,
    resources: seq<Link>,
    strategies: seq<string>)

  function LevelTopics(level: RiskLevel): (r: seq<string>)
    ensures |r| == (match level case High => 4 case Medium => 3 case Low => 2)
  {
    match level
    case High => ["Fundamental Concepts", "Problem Solving", "Time Management", "Study Habits"]
    case Medium => ["Advanced Topics", "Practical Applications", "Consistency"]
    case Low => ["Optimization", "Advanced Techniques"]
  }

  const FixedSchedule: seq<Session> := [
    Session("Monday", "Review fundamentals", "2 hours"),
    Session("Tuesday", "Practice problems", "2 hours"),
    Session("Wednesday", "Concept clarification", "1.5 hours"),
    Session("Thursday", "Group study session", "2 hours"),
    Session("Friday", "Mock tests", "1.5 hours"),
    Session("Weekend", "Self-assessment & revision", "3 hours")]

  const FixedLinks: seq<Link> := [
    Link("Khan Academy - Core Concepts", "Video Course", "#"),
    Link("Practice Problem Set", "Exercises", "#"),
    Link("Study Group Discord", "Community", "#"),
    Link("Office Hours with TA", "Mentorship", "#")]

  const FixedStrategies: seq<string> := [
    "Break study sessions into 25-minute focused blocks",
    "Review notes within 24 hours of each lecture",
    "Form a study group with 2-3 classmates",
    "Use active recall instead of passive reading",
    "Attend all office hours for difficult topics"]

  /** The demo `generateRecoveryPlan`: topics and hours by level; schedule,
      resources and strategies fixed. */
  function GenerateRecoveryPlan(s: Student): (p: MockPlan)
    ensures p.dailyStudyHours == RecoveryPlans.StudyHours(s.riskLevel)
    ensures |p.weakTopics| == p.dailyStudyHours
    ensures |p.schedule| == 6 && |p.resources| == 4 && |p.strategies| == 5
    ensures forall i :: 0 <= i < 6 ==>
              p.schedule[i].day == RecoveryPlans.Days[i] && p.schedule[i].focus == RecoveryPlans.Focuses[i]
  {
    var hours: nat := match s.riskLevel case High => 4 case Medium => 3 case Low => 2;
    MockPlan(LevelTopics(s.riskLevel), hours, FixedSchedule, FixedLinks, FixedStrategies)
  }

  /** The demo plan depends on nothing but the risk level. */
  lemma MockPlanDependsOnlyOnLevel(s1: Student, s2: Student)
    ensures GenerateRecoveryPlan(s1) == GenerateRecoveryPlan(s2) <==> s1.riskLevel == s2.riskLevel
  {
    if GenerateRecoveryPlan(s1) == GenerateRecoveryPlan(s2) {
      assert |LevelTopics(s1.riskLevel)| == |LevelTopics(s2.riskLevel)|;
    }
  }

  /** `getStudentById(id)`: the roster student with that id, if any. */
  function GetStudentById(id: StudentId): (r: Option<Student>)
    ensures r.Some? ==> r.value in Roster && r.value.studentId == id
    ensures r.None? <==> forall i :: 0 <= i < |Roster| ==> Roster[i].studentId != id
  {
    Find(Roster, (s: Student) => s.studentId == id)
  }

  /** Every roster id is found, and it is found as that very student. */
  lemma GetStudentByIdFindsRoster(i: nat)
    requires i < |Roster|
    ensures GetStudentById(Roster[i].studentId) == Some(Roster[i])
  {
    RosterIdsDistinct();
  }

  /** `getRiskStats()` over the demo roster. */
  function GetRiskStats(): (r: Students.RiskStats)
    ensures r.total == |Roster| && r.high + r.medium + r.low == r.total
  {
    Students.GetRiskStats(Roster)
  }

  /** Counting a level over three consecutive groups of students, each
      group entirely at one level. */
  lemma LevelsOfChunks(high: seq<Student>, medium: seq<Student>, low: seq<Student>, level: RiskLevel)
    requires forall i :: 0 <= i < |high| ==> high[i].riskLevel == High
    requires forall i :: 0 <= i < |medium| ==> medium[i].riskLevel == Medium
    requires forall i :: 0 <= i < |low| ==> low[i].riskLevel == Low
    ensures |AtLevel(high + medium + low, level)| ==
            (match level case High => |high| case Medium => |medium| case Low => |low|)
  {
    var p := (s: Student) => s.riskLevel == level;
    FilterConcat(high + medium, low, p);
    FilterConcat(high, medium, p);
    if level == High { FilterKeepsAll(high, p); } else { FilterDropsAll(high, p); }
    if level == Medium { FilterKeepsAll(medium, p); } else { FilterDropsAll(medium, p); }
    if level == Low { FilterKeepsAll(low, p); } else { FilterDropsAll(low, p); }
  }

  /** The demo roster's totals: 10 students, 2 High, 4 Medium, 4 Low. */
  lemma RiskStatsValues()
    ensures GetRiskStats() == Students.RiskStats(10, 2, 4, 4)
  {
    var high, medium, low := [Stu001, Stu002], [Stu003, Stu004, Stu005, Stu006], [Stu007, Stu008, Stu009, Stu010];
    assert Roster == high + medium + low;
    LevelsOfChunks(high, medium, low, High);
    LevelsOfChunks(high, medium, low, Medium);
    LevelsOfChunks(high, medium, low, Low);
  }
}
