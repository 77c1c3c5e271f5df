/** Recovery plans (src/lib/firebase/recoveryPlans.ts): the rule-based plan
    builder `createRecoveryPlanFromStudent`, and the plan collection with
    `generateRecoveryPlan` and `markScheduleItemCompleted`. */
module RecoveryPlans {
  import opened Wrappers
  import opened Seqs
  import opened Strings
  import opened Types
  import Students

  // ---------------------------------------------------------------------
  // The rule-based builder

  /** The quiz-based topics need at least one quiz: an empty list gives none. */
  predicate QuizTopicsFire(s: Student)
  {
    |s.quizScores| > 0 && Students.QuizAverage(s.quizScores) < 60.0
  }

  /** Every weak topic the builder can name, in the order it names them. */
  const TopicOrder: seq<string> :=
    ["Attendance & Consistency", "Fundamental Concepts", "Problem Solving", "Study Habits", "Time Management"]

  /** The topics pushed for the signals that fired, in the order
      attendance, quizzes, engagement. */
  function FiredTopics(s: Student): (r: seq<string>)
    ensures IsSubsequence(r, TopicOrder)
    ensures "Attendance & Consistency" in r <==> s.attendancePercentage < 70.0
    ensures "Fundamental Concepts" in r <==> QuizTopicsFire(s)
    ensures "Problem Solving" in r <==> QuizTopicsFire(s)
    ensures "Study Habits" in r <==> s.engagementScore < 50.0
    ensures "Time Management" in r <==> s.engagementScore < 50.0
  {
    var attendance: seq<string> := if s.attendancePercentage < 70.0 then ["Attendance & Consistency"] else [];
    var quiz: seq<string> := if QuizTopicsFire(s) then ["Fundamental Concepts", "Problem Solving"] else [];
    var engagement: seq<string> := if s.engagementScore < 50.0 then ["Study Habits", "Time Management"] else [];
    SubsequenceRefl(attendance);
    SubsequenceRefl(quiz);
    SubsequenceRefl(engagement);
    SubsequenceConcat(quiz, TopicOrder[1..3], engagement, TopicOrder[3..]);
    assert TopicOrder[1..3] + TopicOrder[3..] == TopicOrder[1..];
    SubsequenceConcat(attendance, TopicOrder[..1], quiz + engagement, TopicOrder[1..]);
    assert TopicOrder[..1] + TopicOrder[1..] == TopicOrder;
    attendance + (quiz + engagement)
  }

  /** The weak topics: one per signal that fired, in the order attendance,
      quizzes, engagement, and a default pair when none fired. */
  function WeakTopics(s: Student): (r: seq<string>)
    ensures r != []
    ensures "Attendance & Consistency" in r <==> s.attendancePercentage < 70.0
    ensures "Fundamental Concepts" in r <==> QuizTopicsFire(s)
    ensures "Problem Solving" in r <==> QuizTopicsFire(s)
    ensures "Study Habits" in r <==> s.engagementScore < 50.0
    ensures "Time Management" in r <==> s.engagementScore < 50.0
    ensures r == ["Advanced Topics", "Optimization"] <==>
            !(s.attendancePercentage < 70.0) && !QuizTopicsFire(s) && !(s.engagementScore < 50.0)
    ensures r != ["Advanced Topics", "Optimization"] ==> IsSubsequence(r, TopicOrder)
  {
    var fired := FiredTopics(s);
    if fired == [] then ["Advanced Topics", "Optimization"] else fired
  }

  /** Daily study hours by risk level. */
  function StudyHours(level: RiskLevel): (h: nat)
    ensures 2 <= h <= 4
    ensures h == 4 <==> level == High
    ensures h == 3 <==> level == Medium
  {
    match level
    case High => 4
    case Medium => 3
    case Low => 2
  }

  /** `Math.ceil(hours * tenths / 10)`, computed exactly. */
  function CeilTenths(hours: nat, tenths: nat): (r: nat)
    ensures hours * tenths <= 10 * r < hours * tenths + 10
  {
    (hours * tenths + 9) / 10
  }

  /** `${n} hours`. */
  function DurationText(n: nat): string
  {
    NatToString(n) + " hours"
  }

  /** The weekly template: day, focus and the day's share of the daily
      hours in tenths (0.5, 0.5, 0.4, 0.5, 0.4, 1.5). */
  const Days: seq<string> := ["Monday", "Tuesday", "Wednesday", "Thursday", "Friday", "Weekend"]
  const Focuses: seq<string> :=
    ["Review fundamentals", "Practice problems", "Concept clarification",
     "Group study session", "Mock tests", "Self-assessment & revision"]
  const WeightTenths: seq<nat> := [5, 5, 4, 5, 4, 15]

  /** The hours each of the six days is given. */
  function ScheduleHours(hours: nat): (r: seq<nat>)
    ensures |r| == 6
    ensures forall i :: 0 <= i < 6 ==> hours * WeightTenths[i] <= 10 * r[i] < hours * WeightTenths[i] + 10
  {
    seq(6, i requires 0 <= i < 6 => CeilTenths(hours, WeightTenths[i]))
  }

  function Entry(i: nat, hours: nat): ScheduleEntry
    requires i < 6
  {
    ScheduleEntry(Days[i], Focuses[i], DurationText(CeilTenths(hours, WeightTenths[i])), false)
  }

  /** The six-entry weekly schedule, none of it completed yet. */
  function WeeklySchedule(hours: nat): (r: seq<ScheduleEntry>)
    ensures |r| == 6
    ensures forall i :: 0 <= i < 6 ==> r[i].day == Days[i] && r[i].focus == Focuses[i] && !r[i].completed
    ensures forall i :: 0 <= i < 6 ==> r[i].duration == DurationText(ScheduleHours(hours)[i])
  {
    [Entry(0, hours), Entry(1, hours), Entry(2, hours), Entry(3, hours), Entry(4, hours), Entry(5, hours)]
  }

  /** The per-day hours for the three possible daily amounts. */
  lemma ScheduleHoursByLevel()
    ensures ScheduleHours(StudyHours(Low)) == [1, 1, 1, 1, 1, 3]
    ensures ScheduleHours(StudyHours(Medium)) == [2, 2, 2, 2, 2, 5]
    ensures ScheduleHours(StudyHours(High)) == [2, 2, 2, 2, 2, 6]
  {
  }

  /** The fixed resource catalogue. */
  const Catalogue: seq<Resource> := [
    Resource("Khan Academy - Core Concepts", VideoCourse, "#", "Comprehensive video tutorials"),
    Resource("Practice Problem Set", Exercises, "#", "Hands-on practice exercises"),
    Resource("Study Group Discord", Community, "#", "Connect with peers"),
    Resource("Office Hours with TA", Mentorship, "#", "Get personalized help")]

  const BaseStrategies: seq<string> := [
    "Break study sessions into 25-minute focused blocks (Pomodoro technique)",
    "Review notes within 24 hours of each lecture",
    "Form a study group with 2-3 classmates",
    "Use active recall instead of passive reading",
    "Attend all office hours for difficult topics"]

  const AttendanceReminder := "Set daily reminders for class attendance"
  const DistractionTip := "Reduce distractions during study time"

  predicate NonEmpty(x: string)
  {
    x != ""
  }

  lemma BaseStrategiesKept()
    ensures Filter(BaseStrategies, NonEmpty) == BaseStrategies
  {
    FilterKeepsAll(BaseStrategies, NonEmpty);
  }

  /** `[x]` when the string is non-empty, `[]` otherwise. */
  function KeptIfNonEmpty(x: string): seq<string>
  {
    if x != "" then [x] else []
  }

  /** `filter(Boolean)` on a list whose head part it keeps acts on the two
      trailing strings alone. */
  lemma FilterTwoTrailing(xs: seq<string>, first: string, second: string)
    requires Filter(xs, NonEmpty) == xs
    ensures Filter(xs + [first, second], NonEmpty) == xs + KeptIfNonEmpty(first) + KeptIfNonEmpty(second)
  {
    FilterConcat(xs, [first, second], NonEmpty);
    FilterPair(first, second, NonEmpty);
    var tail := KeptIfNonEmpty(first) + KeptIfNonEmpty(second);
    assert Filter([first, second], NonEmpty) == tail;
    assert xs + tail == xs + KeptIfNonEmpty(first) + KeptIfNonEmpty(second);
  }

  /** The strategies: the five base ones, then the attendance reminder and
      the distraction tip, each present only when its signal fired (the
      source writes '' for a signal that did not fire and drops the empty
      strings with `filter(Boolean)`). */
  function Strategies(s: Student): (r: seq<string>)
    ensures r == BaseStrategies + (if s.attendancePercentage < 70.0 then [AttendanceReminder] else [])
                                + (if s.engagementScore < 50.0 then [DistractionTip] else [])
    ensures 5 <= |r| <= 7
  {
    var first := if s.attendancePercentage < 70.0 then AttendanceReminder else "";
    var second := if s.engagementScore < 50.0 then DistractionTip else "";
    BaseStrategiesKept();
    FilterTwoTrailing(BaseStrategies, first, second);
    Filter(BaseStrategies + [first, second], NonEmpty)
  }

  /** `createRecoveryPlanFromStudent`. */
  function CreateRecoveryPlanFromStudent(s: Student): (c: PlanContent)
    ensures c.weakTopics != []
    ensures c.dailyStudyHours == StudyHours(s.riskLevel)
    ensures |c.schedule| == 6 && forall i :: 0 <= i < 6 ==> !c.schedule[i].completed
    ensures c.resources == Catalogue && |c.resources| == 4
    ensures 5 <= |c.strategies| <= 7
  {
    var hours := StudyHours(s.riskLevel);
    PlanContent(WeakTopics(s), hours, WeeklySchedule(hours), Catalogue, Strategies(s))
  }

  /** The built plan depends on the record only through the risk level and
      the three signals the rules test. */
  lemma BuilderDependsOnlyOnSignals(s1: Student, s2: Student)
    requires s1.riskLevel == s2.riskLevel
    requires (s1.attendancePercentage < 70.0) == (s2.attendancePercentage < 70.0)
    requires QuizTopicsFire(s1) == QuizTopicsFire(s2)
    requires (s1.engagementScore < 50.0) == (s2.engagementScore < 50.0)
    ensures CreateRecoveryPlanFromStudent(s1) == CreateRecoveryPlanFromStudent(s2)
  {
  }

  /** An empty quiz list adds no quiz topic, although the risk scorer puts
      the same record in its worst quiz band. */
  lemma EmptyQuizzesAddNoQuizTopic(s: Student)
    requires s.quizScores == []
    ensures "Fundamental Concepts" !in WeakTopics(s)
    ensures Students.StudentBands(s).quiz == Students.Severe
  {
  }

  // ---------------------------------------------------------------------
  // The plan collection

  datatype PlanError = StudentNotFound | RecoveryPlanNotFound | WriteFailed

  /** Plan `id` is stored, belongs to `studentId` and is active. */
  predicate ActiveFor(plans: map<PlanId, Plan>, id: PlanId, studentId: StudentId)
  {
    id in plans && plans[id].studentId == studentId && plans[id].isActive
  }

  /** The query for a student's current plan (active plans of the student,
      newest first, limit 1): the position in creation order of the newest
      active plan of the student. */
  function LatestActiveIndex(plans: map<PlanId, Plan>, order: seq<PlanId>, studentId: StudentId): (r: Option<nat>)
    ensures r.Some? ==> r.value < |order| && ActiveFor(plans, order[r.value], studentId)
    ensures r.Some? ==> forall j :: r.value < j < |order| ==> !ActiveFor(plans, order[j], studentId)
    ensures r.None? <==> forall j :: 0 <= j < |order| ==> !ActiveFor(plans, order[j], studentId)
  {
    if order == [] then None
    else if ActiveFor(plans, order[|order| - 1], studentId) then Some(|order| - 1)
    else LatestActiveIndex(plans, order[..|order| - 1], studentId)
  }

  /** The collection after the student's newest active plan, if any, has
      been set inactive. */
  function Superseded(plans: map<PlanId, Plan>, order: seq<PlanId>, studentId: StudentId): map<PlanId, Plan>
  {
    match LatestActiveIndex(plans, order, studentId)
    case None => plans
    case Some(k) => plans[order[k] := plans[order[k]].(isActive := false)]
  }

  /** The content and provenance of a new plan: the AI plan when the AI is
      configured and answered, the rule-based plan otherwise. */
  function ChooseContent(s: Student, aiConfigured: bool, aiPlan: Option<PlanContent>): (r: (PlanContent, Provenance))
    ensures r.1.Ai? <==> aiConfigured && aiPlan.Some?
    ensures r.1.Ai? ==> r.1.model == "gemini-pro" && r.0 == aiPlan.value
    ensures r.1 == Manual ==> r.0 == CreateRecoveryPlanFromStudent(s)
  {
    if aiConfigured && aiPlan.Some? then (aiPlan.value, Ai("gemini-pro"))
    else (CreateRecoveryPlanFromStudent(s), Manual)
  }

  /** The plan document `generateRecoveryPlan` writes. */
  function NewPlan(studentId: StudentId, s: Student, content: PlanContent, provenance: Provenance): (p: Plan)
    ensures p.isActive && p.progress == Percent(0.0)
    ensures p.studentId == studentId && p.riskLevel == s.riskLevel
  {
    Plan(studentId, s.riskLevel, content, provenance, true, Percent(0.0))
  }

  /** The content step of `generateRecoveryPlan`: ask the AI when it is
      configured, fall back to the rule-based builder when it is not or
      when the call fails. */
  method ChoosePlanContent(student: Student, aiConfigured: bool, aiPlan: Option<PlanContent>)
    returns (plan: PlanContent, provenance: Provenance)
    ensures (plan, provenance) == ChooseContent(student, aiConfigured, aiPlan)
  {
    var aiModel: Option<string> := None;
    if aiConfigured {
      if aiPlan.Some? {
        plan := aiPlan.value;
        aiModel := Some("gemini-pro");
      } else {
        plan := CreateRecoveryPlanFromStudent(student);
      }
    } else {
      plan := CreateRecoveryPlanFromStudent(student);
    }
    provenance := if aiModel.Some? then Ai(aiModel.value) else Manual;
  }

  /** The plan `generateRecoveryPlan` writes for a student. */
  function GeneratedPlan(studentId: StudentId, s: Student, aiConfigured: bool, aiPlan: Option<PlanContent>): (p: Plan)
    ensures p.isActive && p.progress == Percent(0.0) && p.studentId == studentId && p.riskLevel == s.riskLevel
    ensures p.provenance.Ai? <==> aiConfigured && aiPlan.Some?
    ensures p.provenance.Ai? ==> p.content == aiPlan.value
    ensures p.provenance == Manual ==> p.content == CreateRecoveryPlanFromStudent(s)
  {
    var choice := ChooseContent(s, aiConfigured, aiPlan);
    NewPlan(studentId, s, choice.0, choice.1)
  }

  /** At most one active plan per student, the state regeneration keeps. */
  ghost predicate OneActivePerStudent(plans: map<PlanId, Plan>)
  {
    forall a, b ::
      (a in plans && b in plans && plans[a].isActive && plans[b].isActive
       && plans[a].studentId == plans[b].studentId) ==> a == b
  }

  /** Every stored plan is listed in `order` once and vice versa. */
  ghost predicate Indexed(plans: map<PlanId, Plan>, order: seq<PlanId>)
  {
    Distinct(order) && forall id :: id in plans <==> id in order
  }

  /** Superseding changes no key, so the collection stays indexed. */
  lemma SupersededIndexed(plans: map<PlanId, Plan>, order: seq<PlanId>, studentId: StudentId)
    requires Indexed(plans, order)
    ensures Superseded(plans, order, studentId).Keys == plans.Keys
    ensures Indexed(Superseded(plans, order, studentId), order)
  {
  }

  /** Appending a fresh id keeps the collection indexed. */
  lemma IndexedAdd(plans: map<PlanId, Plan>, order: seq<PlanId>, newId: PlanId, p: Plan)
    requires Indexed(plans, order) && newId !in plans
    ensures Indexed(plans[newId := p], order + [newId])
  {
    DistinctConcat(order, [newId]);
  }

  /** Regenerating a student's plan, in a collection with at most one active
      plan per student, leaves exactly one active plan for that student (the
      new one) and keeps at most one per student. */
  lemma {:induction false} RegenerationLeavesOneActive(
    plans: map<PlanId, Plan>, order: seq<PlanId>, studentId: StudentId, newId: PlanId, p: Plan)
    requires Indexed(plans, order) && OneActivePerStudent(plans)
    requires newId !in plans && p.isActive && p.studentId == studentId
    ensures var after := Superseded(plans, order, studentId)[newId := p];
      && (forall id :: ActiveFor(after, id, studentId) <==> id == newId)
      && OneActivePerStudent(after)
  {
    var sup := Superseded(plans, order, studentId);
    var after := sup[newId := p];
    // before: nothing of the student remains active once the newest is superseded
    forall id | id in sup
      ensures !ActiveFor(sup, id, studentId)
    {
      match LatestActiveIndex(plans, order, studentId)
      case None =>
        var j :| 0 <= j < |order| && order[j] == id;
      case Some(k) =>
        if id != order[k] {
          assert ActiveFor(plans, order[k], studentId);
          assert sup[id] == plans[id];
        }
    }
    forall a, b | a in after && b in after && after[a].isActive && after[b].isActive
                  && after[a].studentId == after[b].studentId
      ensures a == b
    {
      if a != newId && b != newId {
        assert sup[a].isActive ==> plans[a].isActive;
        assert sup[b].isActive ==> plans[b].isActive;
      }
    }
  }

  /** Only the newest active plan is superseded: with two active plans for a
      student (which `generateRecoveryPlan` alone never produces),
      regenerating leaves the older one active next to the new one. */
  lemma OnlyNewestIsSuperseded(older: Plan, newer: Plan, replacement: Plan)
    requires older.studentId == newer.studentId == replacement.studentId
    requires older.isActive && newer.isActive && replacement.isActive
    ensures var plans := map["p1" := older, "p2" := newer];
      var after := Superseded(plans, ["p1", "p2"], older.studentId)["p3" := replacement];
      ActiveFor(after, "p1", older.studentId) && !ActiveFor(after, "p2", older.studentId)
      && ActiveFor(after, "p3", older.studentId)
  {
    var plans := map["p1" := older, "p2" := newer];
    assert LatestActiveIndex(plans, ["p1", "p2"], older.studentId) == Some(1);
  }

  /** `schedule[dayIndex].completed = completed` when the entry exists. */
  function SetCompleted(schedule: seq<ScheduleEntry>, dayIndex: int, completed: bool): (r: seq<ScheduleEntry>)
    ensures |r| == |schedule|
    ensures 0 <= dayIndex < |schedule| ==> r[dayIndex] == schedule[dayIndex].(completed := completed)
    ensures forall i :: 0 <= i < |schedule| && i != dayIndex ==> r[i] == schedule[i]
    ensures !(0 <= dayIndex < |schedule|) ==> r == schedule
  {
    if 0 <= dayIndex < |schedule| then schedule[dayIndex := schedule[dayIndex].(completed := completed)]
    else schedule
  }

  /** `schedule.filter(item => item.completed).length`. */
  function CompletedCount(schedule: seq<ScheduleEntry>): (n: nat)
    ensures n <= |schedule|
  {
    Count(schedule, (e: ScheduleEntry) => e.completed)
  }

  /** `(completedCount / schedule.length) * 100`; 0 / 0 is NaN. */
  function ProgressOf(schedule: seq<ScheduleEntry>): (p: Progress)
    ensures schedule == [] <==> p == NotANumber
    ensures p.Percent? ==> 0.0 <= p.value <= 100.0
    ensures p.Percent? ==> (p.value == 100.0 <==> CompletedCount(schedule) == |schedule|)
    ensures p.Percent? ==> (p.value == 0.0 <==> CompletedCount(schedule) == 0)
  {
    if |schedule| == 0 then NotANumber
    else
      var n := CompletedCount(schedule);
      PercentBounds(n, |schedule|);
      Percent((n as real) / (|schedule| as real) * 100.0)
  }

  lemma PercentBounds(n: nat, total: nat)
    requires 0 < total && n <= total
    ensures var v := (n as real) / (total as real) * 100.0;
      0.0 <= v <= 100.0 && (v == 100.0 <==> n == total) && (v == 0.0 <==> n == 0)
  {
    var t := total as real;
    var q := (n as real) / t;
    assert q * t == n as real;
    if q == 1.0 {
      assert n as real == t;
    }
  }

  /** The plan after `markScheduleItemCompleted(planId, dayIndex, completed)`. */
  function WithScheduleItem(p: Plan, dayIndex: int, completed: bool): (r: Plan)
    ensures r.progress == ProgressOf(r.content.schedule)
    ensures r.content.schedule == SetCompleted(p.content.schedule, dayIndex, completed)
    ensures r.(content := p.content, progress := p.progress) == p
  {
    var schedule := SetCompleted(p.content.schedule, dayIndex, completed);
    p.(content := p.content.(schedule := schedule), progress := ProgressOf(schedule))
  }

  /** Marking the same entry twice has the effect of marking it once. */
  lemma MarkIdempotent(p: Plan, dayIndex: int, completed: bool)
    ensures WithScheduleItem(WithScheduleItem(p, dayIndex, completed), dayIndex, completed)
            == WithScheduleItem(p, dayIndex, completed)
  {
    var once := SetCompleted(p.content.schedule, dayIndex, completed);
    assert SetCompleted(once, dayIndex, completed) == once;
  }

  /** Marking every entry of a non-empty schedule completed gives 100 %. */
  lemma {:induction false} AllCompletedIsFull(schedule: seq<ScheduleEntry>)
    requires schedule != [] && forall i :: 0 <= i < |schedule| ==> schedule[i].completed
    ensures ProgressOf(schedule) == Percent(100.0)
  {
    FilterKeepsAll(schedule, (e: ScheduleEntry) => e.completed);
  }

  /** The stored recovery plans. `order` lists the plan ids in the order
      they were created (the order of `createdAt`), the newest last. */
  class PlanStore {
    var plans: map<PlanId, Plan>
    var order: seq<PlanId>

    ghost predicate Valid()
      reads this
    {
      Indexed(plans, order)
    }

    constructor ()
      ensures Valid() && plans == map[] && order == []
    {
      plans := map[];
      order := [];
    }

    /** `generateRecoveryPlan(studentId)`. `students` is the student
        collection, `newId` the id the store assigns to the new document,
        `aiConfigured` and `aiPlan` the AI service's configuration and
        answer (None when the call throws), `deactivateOk` and `saveOk`
        whether the two writes succeed. */
    method GenerateRecoveryPlan(
      students: map<StudentId, Student>, studentId: StudentId, newId: PlanId,
      aiConfigured: bool, aiPlan: Option<PlanContent>, deactivateOk: bool, saveOk: bool)
      returns (r: Result<PlanId, PlanError>)
      requires Valid() && newId !in plans
      modifies this
      ensures Valid()
      ensures studentId !in students ==>
                r == Failure(StudentNotFound) && plans == old(plans) && order == old(order)
      ensures studentId in students && LatestActiveIndex(old(plans), old(order), studentId).Some? && !deactivateOk ==>
                r == Failure(WriteFailed) && plans == old(plans) && order == old(order)
      ensures studentId in students && (LatestActiveIndex(old(plans), old(order), studentId).None? || deactivateOk)
              && !saveOk ==>
                r == Failure(WriteFailed) && order == old(order)
                && plans == Superseded(old(plans), old(order), studentId)
      ensures studentId in students && (LatestActiveIndex(old(plans), old(order), studentId).None? || deactivateOk)
              && saveOk ==>
                r == Success(newId) && order == old(order) + [newId]
                && plans == Superseded(old(plans), old(order), studentId)[newId :=
                     GeneratedPlan(studentId, students[studentId], aiConfigured, aiPlan)]
    {
      if studentId !in students {
        return Failure(StudentNotFound);
      }
      var student := students[studentId];

      var deactivated := SupersedeLatest(studentId, deactivateOk);
      if !deactivated {
        return Failure(WriteFailed);
      }

      var plan, provenance := ChoosePlanContent(student, aiConfigured, aiPlan);
      ghost var planDoc := GeneratedPlan(studentId, student, aiConfigured, aiPlan);
      assert NewPlan(studentId, student, plan, provenance) == planDoc;

      if !saveOk {
        return Failure(WriteFailed);
      }
      Insert(newId, NewPlan(studentId, student, plan, provenance));
      r := Success(newId);
    }

    /** The deactivation step of `generateRecoveryPlan`: the student's newest
        active plan, if there is one, is set inactive. `ok` is false when
        that write fails, and then nothing has changed. */
    method SupersedeLatest(studentId: StudentId, deactivateOk: bool) returns (ok: bool)
      requires Valid()
      modifies this
      ensures Valid() && order == old(order)
      ensures ok <==> LatestActiveIndex(old(plans), old(order), studentId).None? || deactivateOk
      ensures ok ==> plans == Superseded(old(plans), old(order), studentId)
      ensures !ok ==> plans == old(plans)
    {
      var existing := LatestActiveIndex(plans, order, studentId);
      if existing.Some? {
        if !deactivateOk {
          return false;
        }
        var id := order[existing.value];
        plans := plans[id := plans[id].(isActive := false)];
      }
      SupersededIndexed(old(plans), order, studentId);
      ok := true;
    }

    /** Storing a new plan document under a fresh id. */
    method Insert(newId: PlanId, p: Plan)
      requires Valid() && newId !in plans
      modifies this
      ensures Valid() && plans == old(plans)[newId := p] && order == old(order) + [newId]
    {
      IndexedAdd(plans, order, newId, p);
      plans := plans[newId := p];
      order := order + [newId];
    }

    /** `markScheduleItemCompleted(planId, dayIndex, completed)`: copies the
        schedule, sets the entry's flag when the index is in range, and
        stores the schedule with the recomputed progress. `writeOk` is false
        when that `updateRecoveryPlan` write fails; the error is re-thrown
        and nothing is stored. */
    method MarkScheduleItemCompleted(planId: PlanId, dayIndex: int, completed: bool, writeOk: bool)
      returns (r: Result<(), PlanError>)
      requires Valid()
      modifies this
      ensures Valid() && order == old(order)
      ensures planId !in old(plans) ==> r == Failure(RecoveryPlanNotFound) && plans == old(plans)
      ensures planId in old(plans) && !writeOk ==> r == Failure(WriteFailed) && plans == old(plans)
      ensures planId in old(plans) && writeOk ==>
                r == Success(()) && plans == old(plans)[planId := WithScheduleItem(old(plans)[planId], dayIndex, completed)]
    {
      if planId !in plans {
        return Failure(RecoveryPlanNotFound);
      }
      var plan := plans[planId];
      var schedule := plan.content.schedule;
      var updatedSchedule := new ScheduleEntry[|schedule|](i requires 0 <= i < |schedule| => schedule[i]);
      if 0 <= dayIndex < updatedSchedule.Length {
        updatedSchedule[dayIndex] := updatedSchedule[dayIndex].(completed := completed);
      }
      assert updatedSchedule[..] == SetCompleted(schedule, dayIndex, completed);

      var completedCount := Count(updatedSchedule[..], (e: ScheduleEntry) => e.completed);
      var progress := if updatedSchedule.Length == 0 then NotANumber
                      else Percent((completedCount as real) / (updatedSchedule.Length as real) * 100.0);
      assert progress == ProgressOf(SetCompleted(schedule, dayIndex, completed));

      if !writeOk {
        return Failure(WriteFailed);
      }
      plans := plans[planId := plan.(content := plan.content.(schedule := updatedSchedule[..]), progress := progress)];
      r := Success(());
    }
  }
}
