/** The seeding script (scripts/seedFirebase.ts): its own copy of the risk
    scorer, `calculateRiskData`, the student documents it writes, and the
    loop that seeds one recovery plan per High or Medium student. The seed
    data is the demo roster of src/data/mockStudents.ts, field for field. */
module SeedFirebase {
  import opened Wrappers
  import opened Seqs
  import opened Types
  import Students
  import MockStudents
  import RecoveryPlans

  // ---------------------------------------------------------------------
  // calculateRiskData

  /** What `calculateRiskData` returns. */
  datatype RiskData = RiskData(riskScore: int, riskFactors: seq<string>)

  /** The quiz average as the script computes it, with no guard: `Some` of
      the average for a non-empty list, `None` for the NaN that 0 / 0 gives. */
  function SeedQuizAverage(scores: seq<real>): (r: Option<real>)
    ensures r.None? <==> scores == []
    ensures r.Some? ==> r.value == Students.QuizAverage(scores)
  {
    if |scores| > 0 then Some(Students.Sum(scores) / (|scores| as real)) else None
  }

  /** The completion percentage as the script computes it: `None` when no
      assignment was set (0 / 0 is NaN, n / 0 is Infinity, and Infinity
      times 100 is still Infinity). */
  function SeedCompletionRate(submitted: nat, total: nat): (r: Option<real>)
    ensures r.None? <==> total == 0
    ensures r.Some? ==> r.value == Students.CompletionRate(submitted, total)
  {
    if total > 0 then Some((submitted as real) / (total as real) * 100.0) else None
  }

  /** A band of a measure that may not be a finite number: every `<` with
      NaN or Infinity is false, so such a measure falls in no band. */
  function SeedBandOf(rule: Students.Rule, m: Option<real>): (b: Students.Band)
    ensures m.None? ==> b == Students.Normal
    ensures m.Some? ==> b == Students.BandOf(rule, m.value)
  {
    match m
    case None => Students.Normal
    case Some(v) => Students.BandOf(rule, v)
  }

  function SeedBands(s: Student): Students.Bands
  {
    Students.Bands(
      Students.BandOf(Students.AttendanceRule, s.attendancePercentage),
      SeedBandOf(Students.QuizRule, SeedQuizAverage(s.quizScores)),
      SeedBandOf(Students.CompletionRule, SeedCompletionRate(s.assignmentsSubmitted, s.totalAssignments)),
      Students.BandOf(Students.EngagementRule, s.engagementScore))
  }

  /** What `calculateRiskData` computes: the clamped sum of the points and
      the factor labels, with the same rules as the service's scorer. */
  function SeedAssess(s: Student): (r: RiskData)
    ensures 0 <= r.riskScore <= 100
    ensures |r.riskFactors| <= 4
  {
    var b := SeedBands(s);
    RiskData(Students.Min(100, Students.RawScore(b)), Students.Factors(b))
  }

  /** `calculateRiskData`: the four if/else blocks with unguarded divisions. */
  method CalculateRiskData(s: Student) returns (r: RiskData)
    ensures r == SeedAssess(s)
  {
    var riskFactors: seq<string> := [];
    var riskScore := 0;

    if s.attendancePercentage < 60.0 {
      riskScore := riskScore + 30;
      riskFactors := riskFactors + ["Low attendance"];
    } else if s.attendancePercentage < 75.0 {
      riskScore := riskScore + 15;
      riskFactors := riskFactors + ["Below average attendance"];
    }
    ghost var b := SeedBands(s);
    assert riskScore == Students.Points(Students.AttendanceRule, b.attendance);
    assert riskFactors == Students.Factor(Students.AttendanceRule, b.attendance);

    // NaN when the list is empty: both comparisons below are then false.
    var avgQuizScore: Option<real> :=
      if |s.quizScores| > 0 then Some(Students.Sum(s.quizScores) / (|s.quizScores| as real)) else None;
    if avgQuizScore.Some? && avgQuizScore.value < 50.0 {
      riskScore := riskScore + 30;
      riskFactors := riskFactors + ["Poor quiz performance"];
    } else if avgQuizScore.Some? && avgQuizScore.value < 65.0 {
      riskScore := riskScore + 15;
      riskFactors := riskFactors + ["Below average quiz scores"];
    }
    assert riskScore == Students.Points(Students.AttendanceRule, b.attendance)
                        + Students.Points(Students.QuizRule, b.quiz);
    assert riskFactors == Students.Factor(Students.AttendanceRule, b.attendance)
                          + Students.Factor(Students.QuizRule, b.quiz);

    // NaN or Infinity when no assignment was set.
    var completionRate: Option<real> :=
      if s.totalAssignments > 0
      then Some((s.assignmentsSubmitted as real) / (s.totalAssignments as real) * 100.0)
      else None;
    if completionRate.Some? && completionRate.value < 50.0 {
      riskScore := riskScore + 20;
      riskFactors := riskFactors + ["Low assignment completion"];
    } else if completionRate.Some? && completionRate.value < 70.0 {
      riskScore := riskScore + 10;
      riskFactors := riskFactors + ["Below average assignment completion"];
    }
    assert riskScore == Students.Points(Students.AttendanceRule, b.attendance)
                        + Students.Points(Students.QuizRule, b.quiz)
                        + Students.Points(Students.CompletionRule, b.completion);
    assert riskFactors == Students.Factor(Students.AttendanceRule, b.attendance)
                          + Students.Factor(Students.QuizRule, b.quiz)
                          + Students.Factor(Students.CompletionRule, b.completion);

    if s.engagementScore < 40.0 {
      riskScore := riskScore + 20;
      riskFactors := riskFactors + ["Low engagement"];
    } else if s.engagementScore < 60.0 {
      riskScore := riskScore + 10;
      riskFactors := riskFactors + ["Below average engagement"];
    }

    r := RiskData(Students.Min(100, riskScore), riskFactors);
  }

  /** With at least one quiz score and at least one assignment, the script's
      copy gives the service's score and factors. */
  lemma SeedAgreesWithService(s: Student)
    requires |s.quizScores| > 0 && s.totalAssignments > 0
    ensures SeedAssess(s).riskScore == Students.Assess(s).riskScore
    ensures SeedAssess(s).riskFactors == Students.Assess(s).riskFactors
  {
    assert SeedBands(s) == Students.StudentBands(s);
  }

  /** On an empty quiz list (with assignments set) the copies part: the
      service counts the missing average as 0 (30 points, "Poor quiz
      performance"), the script's NaN average adds nothing. */
  lemma SeedEmptyQuizzesDiffer(s: Student)
    requires s.quizScores == [] && s.totalAssignments > 0
    ensures SeedBands(s).quiz == Students.Normal
    ensures Students.StudentBands(s).quiz == Students.Severe
    ensures Students.RawScore(Students.StudentBands(s)) == Students.RawScore(SeedBands(s)) + 30
    ensures "Poor quiz performance" in Students.Assess(s).riskFactors
    ensures "Poor quiz performance" !in SeedAssess(s).riskFactors
  {
    var b := SeedBands(s);
    assert "Poor quiz performance" != "Low attendance" && "Poor quiz performance" != "Below average attendance";
    assert Students.Factors(b) == Students.Factor(Students.AttendanceRule, b.attendance)
      + Students.Factor(Students.CompletionRule, b.completion) + Students.Factor(Students.EngagementRule, b.engagement);
  }

  /** With no assignments (and some quiz scores) the copies part too: 20
      points in the service, nothing in the script. */
  lemma SeedNoAssignmentsDiffer(s: Student)
    requires s.totalAssignments == 0 && |s.quizScores| > 0
    ensures SeedBands(s).completion == Students.Normal
    ensures Students.StudentBands(s).completion == Students.Severe
    ensures Students.RawScore(Students.StudentBands(s)) == Students.RawScore(SeedBands(s)) + 20
  {
  }

  // ---------------------------------------------------------------------
  // The student documents

  /** The risk fields of a seeded student document: the level is copied from
      the data, the score and factors come from `calculateRiskData`. */
  datatype StudentDoc = StudentDoc(student: Student, riskScore: int, riskFactors: seq<string>)

  function SeedStudentDoc(s: Student): (d: StudentDoc)
    ensures d.student == s
    ensures 0 <= d.riskScore <= 100
  {
    var risk := SeedAssess(s);
    StudentDoc(s, risk.riskScore, risk.riskFactors)
  }

  /** The seeded level is not derived from the seeded score: STU006 is
      written with level Medium and score 30, which the level thresholds
      place at Low. */
  lemma StoredLevelNotDerived()
    ensures SeedStudentDoc(MockStudents.Stu006).student.riskLevel == Medium
    ensures SeedStudentDoc(MockStudents.Stu006).riskScore == 30
    ensures Students.LevelOf(SeedStudentDoc(MockStudents.Stu006).riskScore) == Low
  {
    MockStudents.ScoreStu006();
    SeedAgreesWithService(MockStudents.Stu006);
  }

  // ---------------------------------------------------------------------
  // The seeded recovery plans

  /** Plans are seeded for High and Medium students only. */
  predicate IsSeedTarget(s: Student)
  {
    s.riskLevel == High || s.riskLevel == Medium
  }

  /** `PLAN_${studentId}`. */
  function PlanIdOf(s: Student): PlanId
  {
    "PLAN_" + s.studentId
  }

  const HighTopics: seq<string> := ["Fundamental Concepts", "Problem Solving", "Time Management", "Study Habits"]
  const OtherTopics: seq<string> := ["Advanced Topics", "Practical Applications", "Consistency"]

  const SeedSchedule: seq<ScheduleEntry> := [
    ScheduleEntry("Monday", "Review fundamentals", "2 hours", false),
    ScheduleEntry("Tuesday", "Practice problems", "2 hours", false),
    ScheduleEntry("Wednesday", "Concept clarification", "1.5 hours", false),
    ScheduleEntry("Thursday", "Group study session", "2 hours", false),
    ScheduleEntry("Friday", "Mock tests", "1.5 hours", false),
    ScheduleEntry("Weekend", "Self-assessment & revision", "3 hours", false)]

  const SeedResources: seq<Resource> := [
    Resource("Khan Academy - Core Concepts", VideoCourse, "#", "Comprehensive video tutorials"),
    Resource("Practice Problem Set", Exercises, "#", "Hands-on practice exercises"),
    Resource("Study Group Discord", Community, "#", "Connect with peers"),
    Resource("Office Hours with TA", Mentorship, "#", "Get personalized help")]

  const SeedStrategies: seq<string> := [
    "Break study sessions into 25-minute focused blocks",
    "Review notes within 24 hours of each lecture",
    "Form a study group with 2-3 classmates",
    "Use active recall instead of passive reading",
    "Attend all office hours for difficult topics"]

  /** The plan document the script writes for a student: topics and hours
      keyed on High against everything else, the rest fixed; manual,
      active, no progress. */
  function SeedPlan(s: Student): (p: Plan)
    ensures p.studentId == s.studentId && p.riskLevel == s.riskLevel
    ensures p.provenance == Manual && p.isActive && p.progress == Percent(0.0)
    ensures s.riskLevel == High ==> |p.content.weakTopics| == 4 && p.content.dailyStudyHours == 4
    ensures s.riskLevel != High ==> |p.content.weakTopics| == 3 && p.content.dailyStudyHours == 3
    ensures |p.content.schedule| == 6 && forall i :: 0 <= i < 6 ==> !p.content.schedule[i].completed
    ensures |p.content.strategies| == 5
  {
    var topics := if s.riskLevel == High then HighTopics else OtherTopics;
    var hours := if s.riskLevel == High then 4 else 3;
    Plan(s.studentId, s.riskLevel, PlanContent(topics, hours, SeedSchedule, SeedResources, SeedStrategies),
         Manual, true, Percent(0.0))
  }

  /** For the students it seeds, the script's hours are the service
      builder's, and its resource list is the builder's catalogue. */
  lemma SeedPlanAgreesWithBuilder(s: Student)
    requires IsSeedTarget(s)
    ensures SeedPlan(s).content.dailyStudyHours == RecoveryPlans.StudyHours(s.riskLevel)
    ensures SeedPlan(s).content.resources == RecoveryPlans.Catalogue
  {
  }

  /** One step of the loop: write the student's plan unless its id exists. */
  function SeedOne(plans: map<PlanId, Plan>, s: Student): (r: map<PlanId, Plan>)
    ensures PlanIdOf(s) in plans ==> r == plans
    ensures PlanIdOf(s) !in plans ==> r == plans[PlanIdOf(s) := SeedPlan(s)]
  {
    if PlanIdOf(s) in plans then plans else plans[PlanIdOf(s) := SeedPlan(s)]
  }

  /** The plans after the loop has handled `targets` in order. */
  function SeedAll(plans: map<PlanId, Plan>, targets: seq<Student>): map<PlanId, Plan>
  {
    if targets == [] then plans
    else SeedOne(SeedAll(plans, targets[..|targets| - 1]), targets[|targets| - 1])
  }

  /** Seeding never overwrites a plan and never removes one. */
  lemma {:induction false} SeedKeepsExisting(plans: map<PlanId, Plan>, targets: seq<Student>)
    ensures forall id :: id in plans ==> id in SeedAll(plans, targets) && SeedAll(plans, targets)[id] == plans[id]
  {
    if targets != [] {
      SeedKeepsExisting(plans, targets[..|targets| - 1]);
    }
  }

  /** After seeding, every target has a plan under its id. */
  lemma {:induction false} SeedCoversTargets(plans: map<PlanId, Plan>, targets: seq<Student>)
    ensures forall i :: 0 <= i < |targets| ==> PlanIdOf(targets[i]) in SeedAll(plans, targets)
  {
    if targets != [] {
      var init := targets[..|targets| - 1];
      SeedCoversTargets(plans, init);
      SeedKeepsExisting(SeedAll(plans, init), []);
      forall i | 0 <= i < |targets|
        ensures PlanIdOf(targets[i]) in SeedAll(plans, targets)
      {
        if i < |targets| - 1 {
          assert targets[i] == init[i];
        }
      }
    }
  }

  /** Every plan seeding adds is the seed plan of one of the targets, stored
      under that target's id. */
  lemma {:induction false} SeedAddsOnlyTargets(plans: map<PlanId, Plan>, targets: seq<Student>)
    ensures forall id :: id in SeedAll(plans, targets) && id !in plans ==>
              exists i :: 0 <= i < |targets| && id == PlanIdOf(targets[i])
                          && SeedAll(plans, targets)[id] == SeedPlan(targets[i])
  {
    if targets != [] {
      var init := targets[..|targets| - 1];
      var last := |targets| - 1;
      SeedAddsOnlyTargets(plans, init);
      forall id | id in SeedAll(plans, targets) && id !in plans
        ensures exists i :: 0 <= i < |targets| && id == PlanIdOf(targets[i])
                            && SeedAll(plans, targets)[id] == SeedPlan(targets[i])
      {
        if id in SeedAll(plans, init) {
          var i :| 0 <= i < |init| && id == PlanIdOf(init[i]) && SeedAll(plans, init)[id] == SeedPlan(init[i]);
          assert targets[i] == init[i];
        } else {
          assert id == PlanIdOf(targets[last]);
        }
      }
    }
  }

  /** When every target already has a plan, seeding changes nothing. */
  lemma {:induction false} SeedNoOpWhenPresent(plans: map<PlanId, Plan>, targets: seq<Student>)
    requires forall i :: 0 <= i < |targets| ==> PlanIdOf(targets[i]) in plans
    ensures SeedAll(plans, targets) == plans
  {
    if targets != [] {
      var init := targets[..|targets| - 1];
      assert forall i :: 0 <= i < |init| ==> init[i] == targets[i];
      SeedNoOpWhenPresent(plans, init);
    }
  }

  /** Running the seed twice leaves what running it once leaves. */
  lemma SeedIdempotent(plans: map<PlanId, Plan>, targets: seq<Student>)
    ensures SeedAll(SeedAll(plans, targets), targets) == SeedAll(plans, targets)
  {
    SeedCoversTargets(plans, targets);
    SeedNoOpWhenPresent(SeedAll(plans, targets), targets);
  }

  /** The `recoveryPlans` collection the script writes to. */
  class PlanCollection {
    var plans: map<PlanId, Plan>

    constructor (existing: map<PlanId, Plan>)
      ensures plans == existing
    {
      plans := existing;
    }

    /** The plan-seeding loop: the High and Medium students of `roster`, in
        order, each given its seed plan unless `PLAN_<id>` already exists. */
    method SeedRecoveryPlans(roster: seq<Student>)
      modifies this
      ensures plans == SeedAll(old(plans), Filter(roster, IsSeedTarget))
    {
      var targets := Filter(roster, IsSeedTarget);
      var i := 0;
      while i < |targets|
        invariant 0 <= i <= |targets|
        invariant plans == SeedAll(old(plans), targets[..i])
      {
        var student := targets[i];
        var planId := "PLAN_" + student.studentId;
        if planId !in plans {
          plans := plans[planId := SeedPlan(student)];
        }
        assert targets[..i + 1][..i] == targets[..i];
        i := i + 1;
      }
      assert targets[..i] == targets;
    }
  }

  /** On the demo roster, the script seeds exactly the six High and Medium
      students, STU001 to STU006. */
  lemma SeedTargetsOfRoster()
    ensures Filter(MockStudents.Roster, IsSeedTarget)
            == [MockStudents.Stu001, MockStudents.Stu002, MockStudents.Stu003,
                MockStudents.Stu004, MockStudents.Stu005, MockStudents.Stu006]
  {
    var front := [MockStudents.Stu001, MockStudents.Stu002, MockStudents.Stu003,
                  MockStudents.Stu004, MockStudents.Stu005, MockStudents.Stu006];
    var back := [MockStudents.Stu007, MockStudents.Stu008, MockStudents.Stu009, MockStudents.Stu010];
    FilterKeepsAll(front, IsSeedTarget);
    FilterDropsAll(back, IsSeedTarget);
    TargetsOfSplit(MockStudents.Roster, front, back);
  }

  lemma TargetsOfSplit(roster: seq<Student>, front: seq<Student>, back: seq<Student>)
    requires roster == front + back
    requires Filter(front, IsSeedTarget) == front && Filter(back, IsSeedTarget) == []
    ensures Filter(roster, IsSeedTarget) == front
  {
    FilterConcat(front, back, IsSeedTarget);
  }
}
