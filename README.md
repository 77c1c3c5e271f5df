# Dropout Guard — a Dafny model of its risk scoring, recovery plans and dashboards

Dropout Guard is a web application for teachers that flags students at risk
of dropping out. This project models its core logic in Dafny and proves
properties of that model:

- **Risk scoring** (`calculateRiskLevel`, src/lib/firebase/students.ts) gives
  each student a score out of 100, a list of factor labels and a level (High,
  Medium or Low). It scores four categories: attendance, quiz average,
  assignment completion and engagement. `getRiskStats` counts the students
  at each level.
- **Recovery plans** (src/lib/firebase/recoveryPlans.ts):
  - the rule-based builder `createRecoveryPlanFromStudent`;
  - `generateRecoveryPlan`, which supersedes the student's newest active
    plan and stores a new one (from the AI service when it answers,
    rule-based otherwise);
  - `markScheduleItemCompleted`, which ticks one day of the weekly schedule
    and recomputes the progress percentage.
- **The demo data** (src/data/mockStudents.ts): the ten-student roster, the
  demo plan generator, lookup by id and the roster statistics.
- **The seeding script** (scripts/seedFirebase.ts):
  - its own copy of the risk scorer (`calculateRiskData`), which does not
    guard its divisions;
  - the student documents it writes;
  - the idempotent loop that gives every High or Medium student one
    recovery plan.
- **Class lists** (src/lib/firebase/teachers.ts): adding a student to a
  teacher's class and removing one.
- **The notifications page** (src/pages/Notifications.tsx): the generated
  list, the unread count, and marking one or all notifications as read.
- **Sign-in** (src/contexts/AuthContext.tsx) and **the route guard**
  (src/components/ProtectedRoute.tsx).
- **The risk heatmap's sort and counts** (src/components/RiskHeatmap.tsx)
  and **the dashboard's search and risk filter** (src/pages/Dashboard.tsx).

There is one module per source file, plus shared modules:

- `Wrappers`: Option and Result.
- `Seqs`: the array operations `filter`, `find` and `includes`.
- `Strings`: `toLowerCase`, `includes` and number-to-text.
- `Types`: the records of src/types/firebase.ts.

How the source's forms are modelled:

- Code that updates state step by step is imperative Dafny. This covers
  the scorer's if/else chains, the notification generator's loops, the
  seeding loop, the in-place schedule update, and the stores and React
  state as classes with `modifies` clauses. Each method is proved equal to
  a specification function, and the source's promises are proved about
  that function as lemmas.
- Pure code (the plan builder, the guard, the sort and the filter) is
  modelled as functions.
- Percentages and averages are exact `real`s. `Math.ceil(h * 0.4)` is
  computed exactly on tenths.
- JavaScript's NaN and Infinity appear only in the seeding script's scorer
  and in the progress of an empty schedule. Both are modelled explicitly:
  `Option<real>` for the scorer's measures, and the `Progress` value
  `NotANumber` for the empty schedule.

Where the code and its description disagree, the model follows the code:

- A failed write while deactivating the previous plan aborts
  `generateRecoveryPlan`. The write is awaited inside the same `try`, so
  the error propagates; it is not best-effort.
- The seeding script's scorer gives 0 points, not the worst band, for an
  empty quiz list or zero assignments. This is
  `SeedFirebase.SeedEmptyQuizzesDiffer` and
  `SeedFirebase.SeedNoAssignmentsDiffer`.
- The seeded and demo level of STU006 is Medium, but its score is 30,
  which the thresholds place at Low. This is
  `MockStudents.StoredLevelsAgainstScorer` and
  `SeedFirebase.StoredLevelNotDerived`. The level is stored data; it is
  not derived from the score.

## Model

| member | source | states |
|---|---|---|
| Types.AtLevel | src/lib/firebase/students.ts:292-294 | `students.filter(s => s.riskLevel === level)` holds exactly the students at that level |
| Types.LevelCountsPartition | src/lib/firebase/students.ts:291-294 | The High, Medium and Low counts add up to the number of students |
| Strings.ToLower | src/pages/Dashboard.tsx:19-20 | The model's ASCII `toLowerCase`: the length is kept, each 'A'–'Z' becomes its lower-case letter, and every other character is unchanged |
| Strings.ContainsLowered | src/pages/Dashboard.tsx:19-20 | An occurrence of the needle survives lower-casing both strings (with the ASCII lowering) |
| Students.RawScore | src/lib/firebase/students.ts:196-236 | The sum of the four categories' points never exceeds 100 (30+30+20+20) |
| Students.Assess | src/lib/firebase/students.ts:188-253 | The score lies in [0, 100], there are at most four factors, and the level is the threshold level of the score |
| Students.CalculateRiskLevel | src/lib/firebase/students.ts:188-253 | The imperative scorer computes exactly `Assess`: the score is in [0, 100] and the level follows the thresholds |
| Students.CategoryBands | src/lib/firebase/students.ts:197-236 | Each category falls in exactly one band, as an if-and-only-if with its two thresholds (60/75, 50/65, 50/70, 40/60) |
| Students.CategoryPoints | src/lib/firebase/students.ts:197-236 | The points and label each band contributes: 30/15, 30/15, 20/10 and 20/10 with their labels, and nothing for a normal band |
| Students.AverageBelow | src/lib/firebase/students.ts:206-209 | For a non-empty list, the average is below t iff the sum is below t times the count |
| Students.CompletionBelow | src/lib/firebase/students.ts:218-221 | With assignments set, completion is below t iff 100 × submitted < t × total |
| Students.EmptyQuizzesScoreWorst | src/lib/firebase/students.ts:206-212 | An empty quiz list counts as average 0: the worst quiz band, with "Poor quiz performance" |
| Students.NoAssignmentsScoreWorst | src/lib/firebase/students.ts:218-224 | Zero assignments count as 0 % completion, with no division: the worst band and "Low assignment completion" |
| Students.LevelThresholds | src/lib/firebase/students.ts:239-246 | High iff score ≥ 70, Medium iff 40 ≤ score < 70, Low iff score < 40 |
| Students.LevelMonotone | src/lib/firebase/students.ts:239-246 | A higher score never gives a lower level |
| Students.FactorCount | src/lib/firebase/students.ts:193-251 | There is one factor per category that fired. The clamp never changes the sum. The score is 0 iff there are no factors |
| Students.FactorFromLabels | src/lib/firebase/students.ts:197-236 | A category adds at most one label, and only one of its own two |
| Students.FactorsDistinct | src/lib/firebase/students.ts:193-251 | No factor label appears twice in an assessment |
| Students.GetRiskStats | src/lib/firebase/students.ts:282-295 | `total` is the number of students, and each count is the size of its level's filter; the counts add up to `total` |
| RecoveryPlans.FiredTopics | src/lib/firebase/recoveryPlans.ts:188-202 | Each of the five signal topics is present iff its own signal fired (attendance < 70, a quiz average < 60 with at least one quiz, engagement < 50). The list is a subsequence of the fixed order attendance, quiz, engagement, so it has no other topics and no repeats |
| RecoveryPlans.WeakTopics | src/lib/firebase/recoveryPlans.ts:188-206 | Topics are never empty. Each of the five signal topics is present iff its own signal fired. The list is exactly the default pair iff none fired, and otherwise it is a subsequence of the fixed order attendance, quiz, engagement, which pins both its contents and its order |
| RecoveryPlans.StudyHours | src/lib/firebase/recoveryPlans.ts:209 | 4 hours iff High, 3 iff Medium, otherwise 2 |
| RecoveryPlans.CeilTenths | src/lib/firebase/recoveryPlans.ts:213-218 | `Math.ceil(h × w/10)`, given as the unique r with h·w ≤ 10r < h·w + 10 |
| RecoveryPlans.ScheduleHours | src/lib/firebase/recoveryPlans.ts:213-218 | Six day allotments, each the ceiling of the daily hours times its weight (0.5, 0.5, 0.4, 0.5, 0.4, 1.5) |
| RecoveryPlans.WeeklySchedule | src/lib/firebase/recoveryPlans.ts:212-219 | Six entries, Monday to Weekend, with their focus and "N hours" duration, none completed |
| RecoveryPlans.ScheduleHoursByLevel | src/lib/firebase/recoveryPlans.ts:209-218 | The allotments are [1,1,1,1,1,3] for Low, [2,2,2,2,2,5] for Medium and [2,2,2,2,2,6] for High |
| RecoveryPlans.BaseStrategiesKept | src/lib/firebase/recoveryPlans.ts:230-238 | `filter(Boolean)` keeps all five fixed strategies |
| RecoveryPlans.FilterTwoTrailing | src/lib/firebase/recoveryPlans.ts:230-238 | On a list it keeps whole, `filter(Boolean)` drops exactly the empty strings among the two conditional trailing entries |
| RecoveryPlans.Strategies | src/lib/firebase/recoveryPlans.ts:230-238 | The five base strategies, then the attendance reminder iff attendance < 70, then the distraction tip iff engagement < 50; 5 to 7 entries |
| RecoveryPlans.CreateRecoveryPlanFromStudent | src/lib/firebase/recoveryPlans.ts:184-247 | Non-empty topics, hours by level, six uncompleted days, the four catalogue resources and 5–7 strategies |
| RecoveryPlans.BuilderDependsOnlyOnSignals | src/lib/firebase/recoveryPlans.ts:184-247 | Two records with the same level and the same three signals get the same plan |
| RecoveryPlans.EmptyQuizzesAddNoQuizTopic | src/lib/firebase/recoveryPlans.ts:192-198 | An empty quiz list adds no quiz topic, although the scorer puts that record in its worst quiz band |
| RecoveryPlans.LatestActiveIndex | src/lib/firebase/recoveryPlans.ts:54-73 | "Active plans of the student, newest first, limit 1": the result is active and no later plan is; None iff the student has no active plan |
| RecoveryPlans.ChooseContent | src/lib/firebase/recoveryPlans.ts:124-147 | The provenance is AI ("gemini-pro") iff the AI is configured and answered, and then the content is the AI's. Otherwise it is the rule-based plan, marked manual |
| RecoveryPlans.NewPlan | src/lib/firebase/recoveryPlans.ts:153-164 | The new document is active, has progress 0 and carries the student's id and level |
| RecoveryPlans.ChoosePlanContent | src/lib/firebase/recoveryPlans.ts:124-147 | The imperative try/fallback chain yields exactly `ChooseContent` |
| RecoveryPlans.GeneratedPlan | src/lib/firebase/recoveryPlans.ts:124-169 | The stored plan is active with 0 progress and the student's id and level. It is AI-generated iff the AI answered; otherwise its content is the rule-based plan |
| RecoveryPlans.SupersededIndexed | src/lib/firebase/recoveryPlans.ts:118-122 | Deactivating a plan changes no key of the collection |
| RecoveryPlans.IndexedAdd | src/lib/firebase/recoveryPlans.ts:150-171 | Storing under a fresh id keeps every plan listed once in creation order |
| RecoveryPlans.RegenerationLeavesOneActive | src/lib/firebase/recoveryPlans.ts:117-171 | Starting from at most one active plan per student, regeneration leaves exactly one active plan for the student (the new one) and at most one for every student |
| RecoveryPlans.OnlyNewestIsSuperseded | src/lib/firebase/recoveryPlans.ts:118-122 | Only the newest active plan is deactivated. A student who somehow has two active plans keeps the older one active next to the new one |
| RecoveryPlans.SetCompleted | src/lib/firebase/recoveryPlans.ts:317-320 | The entry's flag is set when the index is in range. Every other entry is unchanged, and an out-of-range index changes nothing |
| RecoveryPlans.CompletedCount | src/lib/firebase/recoveryPlans.ts:323 | The number of completed entries is at most the schedule length |
| RecoveryPlans.ProgressOf | src/lib/firebase/recoveryPlans.ts:323-324 | NaN iff the schedule is empty; otherwise in [0, 100], 100 iff every entry is completed and 0 iff none is |
| RecoveryPlans.PercentBounds | src/lib/firebase/recoveryPlans.ts:324 | n/t·100 lies in [0, 100], equals 100 iff n = t and 0 iff n = 0 |
| RecoveryPlans.WithScheduleItem | src/lib/firebase/recoveryPlans.ts:317-329 | Only the schedule and progress change; the progress is recomputed from the new schedule |
| RecoveryPlans.MarkIdempotent | src/lib/firebase/recoveryPlans.ts:306-329 | Marking the same entry twice with the same flag is the same as marking it once |
| RecoveryPlans.AllCompletedIsFull | src/lib/firebase/recoveryPlans.ts:323-324 | A non-empty schedule with every entry completed is at 100 % |
| RecoveryPlans.PlanStore.constructor | src/lib/firebase/recoveryPlans.ts:30 | The collection starts empty and indexed |
| RecoveryPlans.PlanStore.GenerateRecoveryPlan | src/lib/firebase/recoveryPlans.ts:108-178 | Four cases. (1) Student not found: an error, nothing changes. (2) The deactivation write fails: an error, nothing changes. (3) The save fails: an error, with the previous plan already superseded. (4) Success: the newest active plan is superseded, `GeneratedPlan` is stored under the new id, and that id is returned |
| RecoveryPlans.PlanStore.SupersedeLatest | src/lib/firebase/recoveryPlans.ts:117-122 | Succeeds iff there is no active plan or the write succeeds. On success the newest active plan is deactivated; on failure nothing changes |
| RecoveryPlans.PlanStore.Insert | src/lib/firebase/recoveryPlans.ts:150-171 | The plan is stored under the fresh id, appended in creation order, and the collection stays indexed |
| RecoveryPlans.PlanStore.MarkScheduleItemCompleted | src/lib/firebase/recoveryPlans.ts:306-334 | A missing plan is an error with nothing changed, and so is a failing `updateRecoveryPlan` write. Otherwise only that plan changes, to `WithScheduleItem`, through an in-place update of a copied array |
| MockStudents.RosterIdsDistinct | src/data/mockStudents.ts:54-208 | The ten demo ids are pairwise distinct |
| MockStudents.RosterHasData | src/data/mockStudents.ts:54-208 | Every demo student has eight quiz scores and ten assignments, so the scorer's empty-data fallbacks never apply |
| MockStudents.ScoreStu001 | src/data/mockStudents.ts:56-70 | STU001 scores High, 100, with all four worst-band labels |
| MockStudents.ScoreStu002 | src/data/mockStudents.ts:71-85 | STU002 scores High, 100 |
| MockStudents.ScoreStu003 | src/data/mockStudents.ts:87-101 | STU003 scores Medium, 50 |
| MockStudents.ScoreStu004 | src/data/mockStudents.ts:102-116 | STU004 scores Medium, 40 |
| MockStudents.ScoreStu005 | src/data/mockStudents.ts:117-131 | STU005 scores Medium, 50 |
| MockStudents.ScoreStu006 | src/data/mockStudents.ts:132-146 | STU006 scores Low, 30, labelled "Below average attendance" and "Below average quiz scores" |
| MockStudents.ScoreStu007 | src/data/mockStudents.ts:148-162 | STU007 scores Low, 0, with no factors |
| MockStudents.ScoreStu008 | src/data/mockStudents.ts:163-177 | STU008 scores Low, 0 |
| MockStudents.ScoreStu009 | src/data/mockStudents.ts:178-192 | STU009 scores Low, 0 |
| MockStudents.ScoreStu010 | src/data/mockStudents.ts:193-207 | STU010 scores Low, 0 |
| MockStudents.StoredLevelsAgainstScorer | src/data/mockStudents.ts:54-208 | A stored level equals the scorer's level for every demo student except STU006 (if and only if) |
| MockStudents.LevelTopics | src/data/mockStudents.ts:211-215 | 4, 3 or 2 topics for High, Medium or Low |
| MockStudents.GenerateRecoveryPlan | src/data/mockStudents.ts:210-242 | The hours are the service builder's hours for the level, and there is one topic per daily hour. It has six sessions on the builder's days and focuses, four resources and five strategies |
| MockStudents.MockPlanDependsOnlyOnLevel | src/data/mockStudents.ts:210-242 | Two students get the same demo plan iff they have the same level |
| MockStudents.GetStudentById | src/data/mockStudents.ts:244-246 | A found student is in the roster with that id; None iff no roster student has it |
| MockStudents.GetStudentByIdFindsRoster | src/data/mockStudents.ts:244-246 | Every roster id is found, as that very student |
| MockStudents.GetRiskStats | src/data/mockStudents.ts:248-256 | The total is the roster size and the level counts add up to it |
| MockStudents.LevelsOfChunks | src/data/mockStudents.ts:248-256 | Counting a level over groups that are each uniform in level gives the size of that level's group |
| MockStudents.RiskStatsValues | src/data/mockStudents.ts:248-256 | The demo statistics are 10 students: 2 High, 4 Medium and 4 Low |
| SeedFirebase.SeedQuizAverage | scripts/seedFirebase.ts:194 | Not finite (NaN) iff the list is empty; otherwise the service's average |
| SeedFirebase.SeedCompletionRate | scripts/seedFirebase.ts:203 | Not finite iff no assignment was set; otherwise the service's rate |
| SeedFirebase.SeedBandOf | scripts/seedFirebase.ts:195-210 | A non-finite measure fails every `<` test and falls in no band; a finite one falls in the service's band |
| SeedFirebase.SeedAssess | scripts/seedFirebase.ts:182-224 | The score lies in [0, 100], with at most four factors |
| SeedFirebase.CalculateRiskData | scripts/seedFirebase.ts:182-224 | The imperative copy computes exactly `SeedAssess` |
| SeedFirebase.SeedAgreesWithService | scripts/seedFirebase.ts:182-224 | With quizzes and assignments present, the script's score and factors equal the service's |
| SeedFirebase.SeedEmptyQuizzesDiffer | scripts/seedFirebase.ts:194-201 | With no quizzes, the service adds 30 points and "Poor quiz performance" and the script adds neither |
| SeedFirebase.SeedNoAssignmentsDiffer | scripts/seedFirebase.ts:203-210 | With no assignments, the service adds 20 points and the script adds none |
| SeedFirebase.SeedStudentDoc | scripts/seedFirebase.ts:310-334 | The document keeps the record, with a score in [0, 100] |
| SeedFirebase.StoredLevelNotDerived | scripts/seedFirebase.ts:313-327 | STU006 is written as Medium with score 30, which the thresholds place at Low |
| SeedFirebase.SeedPlan | scripts/seedFirebase.ts:376-417 | The plan is manual, active and at 0 progress, with the student's id and level. High gets 4 topics and 4 hours, everyone else 3 and 3. It has six uncompleted days and five strategies |
| SeedFirebase.SeedPlanAgreesWithBuilder | scripts/seedFirebase.ts:376-403 | For High and Medium students the hours equal the service builder's, and the resources equal its catalogue |
| SeedFirebase.SeedOne | scripts/seedFirebase.ts:369-422 | The step writes `PLAN_<id>` iff it is absent and otherwise changes nothing |
| SeedFirebase.SeedKeepsExisting | scripts/seedFirebase.ts:366-428 | Seeding never overwrites or removes a plan |
| SeedFirebase.SeedCoversTargets | scripts/seedFirebase.ts:366-428 | Afterwards every target has a plan under its id |
| SeedFirebase.SeedAddsOnlyTargets | scripts/seedFirebase.ts:366-428 | Every added plan is some target's seed plan, under that target's id |
| SeedFirebase.SeedNoOpWhenPresent | scripts/seedFirebase.ts:369-374 | When every target already has a plan, seeding changes nothing |
| SeedFirebase.SeedIdempotent | scripts/seedFirebase.ts:366-428 | Running the seed twice gives the same result as running it once |
| SeedFirebase.PlanCollection.constructor | scripts/seedFirebase.ts:370 | The collection starts as the existing plans |
| SeedFirebase.PlanCollection.SeedRecoveryPlans | scripts/seedFirebase.ts:362-428 | The loop over the High and Medium students yields exactly `SeedAll` of the filtered roster |
| SeedFirebase.SeedTargetsOfRoster | scripts/seedFirebase.ts:362-364 | On the demo roster the targets are STU001–STU006, in order |
| SeedFirebase.TargetsOfSplit | scripts/seedFirebase.ts:362-364 | Filtering a roster split into kept and dropped parts yields the kept part |
| Teachers.WithStudent | src/lib/firebase/teachers.ts:141-145 | The id ends up in the list and the old list is a prefix. The list is unchanged iff the id was already there |
| Teachers.WithoutStudent | src/lib/firebase/teachers.ts:165-167 | The id is gone, every other id stays with its number of occurrences, and the result is an order-preserving subsequence |
| Teachers.AddIdempotent | src/lib/firebase/teachers.ts:141-145 | Adding twice is the same as adding once |
| Teachers.AddKeepsDistinct | src/lib/firebase/teachers.ts:141-145 | Adding never introduces a duplicate |
| Teachers.RemoveAbsent | src/lib/firebase/teachers.ts:165-167 | Removing an absent id leaves the list unchanged |
| Teachers.RemoveUndoesAdd | src/lib/firebase/teachers.ts:141-167 | Removing right after adding gives the list with the id removed |
| Teachers.RemoveKeepsDistinct | src/lib/firebase/teachers.ts:165-167 | Removing keeps a duplicate-free list duplicate-free |
| Teachers.TeacherStore.constructor | src/lib/firebase/teachers.ts:24 | The store holds the given teachers |
| Teachers.TeacherStore.UpdateStudentIds | src/lib/firebase/teachers.ts:113-126 | Only that teacher changes: its list, and `updatedAt` set to the write time |
| Teachers.TeacherStore.AddStudentToTeacher | src/lib/firebase/teachers.ts:131-150 | A missing teacher is an error with nothing changed. If the student is already listed there is no write at all, so `updatedAt` keeps its value. Otherwise the id is appended and stamped |
| Teachers.TeacherStore.RemoveStudentFromTeacher | src/lib/firebase/teachers.ts:155-172 | A missing teacher is an error. Otherwise the filtered list is written and stamped, even if the id was absent |
| Notifications.Take | src/pages/Notifications.tsx:48 | `slice(0, n)` keeps the first min(n, length) elements |
| Notifications.GeneratedShape | src/pages/Notifications.tsx:30-62 | One unread high-risk entry per High student, in roster order, then read "declining" entries for at most two Medium students |
| Notifications.GeneratedUnread | src/pages/Notifications.tsx:30-68 | The initial unread count is the number of High students |
| Notifications.HighRiskIdInjective | src/pages/Notifications.tsx:36 | `notif-${i}-1` determines i |
| Notifications.DecliningIdInjective | src/pages/Notifications.tsx:50 | `notif-declining-${i}` determines i |
| Notifications.IdKindsDiffer | src/pages/Notifications.tsx:36-50 | A high-risk id never equals a declining id |
| Notifications.GeneratedIdsDistinct | src/pages/Notifications.tsx:30-62 | The generated ids are pairwise distinct, so marking by id touches one entry |
| Notifications.MarkedRead | src/pages/Notifications.tsx:70-74 | Exactly the entries with that id become read, and nothing else changes |
| Notifications.AllRead | src/pages/Notifications.tsx:76-78 | Every entry becomes read, and nothing else changes |
| Notifications.MarkIdempotent | src/pages/Notifications.tsx:70-74 | Marking the same id twice is the same as marking it once |
| Notifications.MarkNeverRaisesUnread | src/pages/Notifications.tsx:68-74 | Marking lowers the unread count by the unread entries with that id, never raising it |
| Notifications.AllReadClearsUnread | src/pages/Notifications.tsx:68-78 | After marking all, nothing is unread and only the flags changed |
| Notifications.NotificationCenter.constructor | src/pages/Notifications.tsx:66 | The page state starts as the generated list |
| Notifications.NotificationCenter.MarkAsRead | src/pages/Notifications.tsx:70-74 | The state becomes `MarkedRead` of the old state, and the unread count does not increase |
| Notifications.NotificationCenter.MarkAllAsRead | src/pages/Notifications.tsx:76-78 | The state becomes `AllRead` of the old state, and the unread count is 0 |
| Notifications.GenerateNotifications | src/pages/Notifications.tsx:30-62 | The two push loops build exactly `Generated` of the roster |
| AuthContext.MatchedStudent | src/contexts/AuthContext.tsx:46 | A match is an account whose email equals the given one ignoring case; None iff no account matches |
| AuthContext.StudentIdFor | src/contexts/AuthContext.tsx:47 | The matched account's id when it is non-empty, STU001 when nothing matched; never empty |
| AuthContext.NewUser | src/contexts/AuthContext.tsx:38-52 | The user keeps the email and role. It has a student id iff it is a student, and that id is `StudentIdFor` |
| AuthContext.StudentById | src/contexts/AuthContext.tsx:62 | A found record has that id; None iff no account has it |
| AuthContext.CurrentStudentOf | src/contexts/AuthContext.tsx:61-63 | A current student exists only for a student user, and it is the account with the user's id |
| AuthContext.RosterStartsWithDefault | src/contexts/AuthContext.tsx:47 | The fallback id STU001 is the first demo account's id |
| AuthContext.StudentLoginHasRecord | src/contexts/AuthContext.tsx:45-63 | A student login always resolves to a record. With no email match, that record is STU001's |
| AuthContext.TeacherHasNoStudent | src/contexts/AuthContext.tsx:38-63 | A teacher never has a current student |
| AuthContext.AuthProvider.constructor | src/contexts/AuthContext.tsx:29-32 | The user starts as the stored session, so state and storage agree |
| AuthContext.AuthProvider.Login | src/contexts/AuthContext.tsx:34-54 | Succeeds iff the password has at least 4 characters. A refusal changes nothing. On success the user is `NewUser`, stored in the session, and authenticated. A student login has a current student |
| AuthContext.AuthProvider.Logout | src/contexts/AuthContext.tsx:56-59 | The user and stored session are cleared: not authenticated, no current student |
| ProtectedRoute.Guard | src/components/ProtectedRoute.tsx:9-23 | Signed out: redirect to "/" whatever the roles. It renders iff signed in with an allowed role. A disallowed teacher goes to "/dashboard" and a disallowed student to "/student-dashboard" |
| ProtectedRoute.AllowedRolesOf | src/App.tsx:29-57 | The guarded routes: the dashboard and notifications for teachers, the student dashboard for students |
| ProtectedRoute.RedirectIsRendered | src/components/ProtectedRoute.tsx:16-19 | A turned-away user is sent to a route the guard renders for them, so redirection never loops |
| ProtectedRoute.SignedOutGoesToLogin | src/components/ProtectedRoute.tsx:12-14 | Every guarded route sends a signed-out visitor to the unguarded login page |
| ProtectedRoute.SharedRoutesRender | src/App.tsx:48-57 | The student profile and recovery pages render for either role |
| RiskHeatmap.InsertBetween | src/components/RiskHeatmap.tsx:12-15 | A stable insertion step places an element after all of equal or lower rank and before all of higher rank |
| RiskHeatmap.AtLevelSnoc | src/components/RiskHeatmap.tsx:12-15 | Appending a student adds it to the end of its own level's group only |
| RiskHeatmap.InsertHigh | src/components/RiskHeatmap.tsx:12-15 | Inserting a High student into High/Medium/Low groups puts it at the end of the High group |
| RiskHeatmap.InsertMedium | src/components/RiskHeatmap.tsx:12-15 | Inserting a Medium student puts it at the end of the Medium group |
| RiskHeatmap.InsertLow | src/components/RiskHeatmap.tsx:12-15 | Inserting a Low student puts it at the end |
| RiskHeatmap.SortIsGrouped | src/components/RiskHeatmap.tsx:12-15 | The sort is stable: it gives the High students, then Medium, then Low, each in input order |
| RiskHeatmap.GroupedIsSorted | src/components/RiskHeatmap.tsx:13-14 | That order is sorted by rank High 0, Medium 1, Low 2 |
| RiskHeatmap.GroupedIsPermutation | src/components/RiskHeatmap.tsx:12 | Grouping loses and adds no student |
| RiskHeatmap.SortByRiskCorrect | src/components/RiskHeatmap.tsx:12-15 | `sortedStudents` is a permutation of the input, sorted by rank and stable |
| RiskHeatmap.Counts | src/components/RiskHeatmap.tsx:74-88 | The three counts add up to the number of students |
| RiskHeatmap.CountsMatchGrid | src/components/RiskHeatmap.tsx:12-88 | Each count is the length of its level's block in the sorted grid |
| Dashboard.FilteredStudents | src/pages/Dashboard.tsx:18-23 | An order-preserving subsequence of the roster. It holds exactly the students who match the search and the risk filter |
| Dashboard.EmptySearchShowsAll | src/pages/Dashboard.tsx:18-23 | An empty search with 'All' shows the whole roster unchanged |
| Dashboard.EmptySearchShowsLevel | src/pages/Dashboard.tsx:18-23 | An empty search with a level shows exactly that level's students, in order |
| Dashboard.OnlyLevelShown | src/pages/Dashboard.tsx:21 | With a level selected, every student shown is at that level |
| Dashboard.SearchIgnoresCase | src/pages/Dashboard.tsx:19-20 | A query and its lower-cased form show the same students |
| Dashboard.SubstringIsShown | src/pages/Dashboard.tsx:19-20 | A student whose name or course contains the query is shown under 'All' |
| Dashboard.LevelNarrowsAll | src/pages/Dashboard.tsx:21 | A level filter gives the 'All' result restricted to that level |

## Left out

- Firestore reads and writes are replaced by maps held in classes. A
  success flag models the failure of each recovery-plan write: deactivation,
  save, and the schedule update. The failure is re-thrown in every case.
  This covers
  `getStudent`, `getRecoveryPlan`, `getTeacher`, `updateTeacher`, `setDoc`,
  `updateDoc` and the query builders. Listeners, indexes and other CRUD
  wrappers are not modelled.
- `Teachers.TeacherStore.AddStudentToTeacher` and
  `Teachers.TeacherStore.RemoveStudentFromTeacher`: a failing
  `updateTeacher` write, which the source re-throws, is not modelled; only
  the missing teacher is an error.
- The Gemini call and `isGeminiConfigured` are inputs: `aiConfigured`, and
  `aiPlan` (None when the call throws). The AI content itself is not
  modelled.
- Clocks (`Timestamp.now()`, `new Date()`) are left out:
  - a teacher write's time is a `now` parameter;
  - plan recency is creation order;
  - `createdAt`, `generatedAt` and `lastRiskAssessmentAt` are not stored.
- Document-id generation is a `newId` parameter, required to be fresh.
- The seeding script's Firebase Auth accounts, teacher and user documents,
  console output and per-student catch-and-continue are not modelled.
  Seeding writes never fail in the model.
- `SeedFirebase.PlanCollection.SeedRecoveryPlans`: a plan write that
  fails is skipped by the script and the loop continues. The model has no
  such failure.
- `updateStudentRiskAssessment` is a read, a call to the modelled scorer
  and a write; it is not modelled separately.
- The rest of src/lib/firebase/notifications.ts is not modelled:
  `markAllNotificationsAsRead` issues concurrent writes, and
  `createRiskAlertNotification` only formats text. The page's
  notification text, which prints JavaScript numbers, is also left out.
- `generateQuizScores` and `generateWeeklyProgress` are random and not
  modelled.
- The `weeklyProgress` and `lastActive` fields are not part of the student
  record.
- Session storage is a mirror field `stored`; JSON serialisation is not
  modelled.
- `useAuth`'s error outside a provider is not modelled, and neither is the
  unused teacher email list. The login accepts any teacher email.
- `AuthContext.AuthProvider.Login`: the password length is counted in
  characters, whereas JavaScript counts UTF-16 code units.
- Rendering is not modelled: JSX, colours, icons, navigation callbacks,
  animation delays, metric cards, toasts, and every page outside the core.
- `Strings.ToLower`: only ASCII 'A'–'Z' is lowered. JavaScript's
  `toLowerCase` also maps every other Unicode cased letter, and it can
  change the length ("İ" becomes two code units). The model does not
  capture that mapping. So the dashboard search (`Dashboard.MatchesSearch`)
  and the login email match (`AuthContext.MatchedStudent`) differ from the
  source on non-ASCII letters: "José" does not match the query "JOSÉ".
- src/App.tsx is modelled only for its table of guarded routes and their
  roles (`ProtectedRoute.AllowedRolesOf`), which the redirect lemmas use.
  The router and the page components are not part of this model.
- IEEE floating point is not modelled. Averages and percentages are exact
  reals, so rounding differences at a threshold are not captured.
- `RecoveryPlans.PlanStore.MarkScheduleItemCompleted`: the source's
  shallow copy shares the entry objects with the plan it fetched, and it
  mutates the entry in place. The model copies values into an array. That
  sharing is not observable after the call.
- `RiskHeatmap.SortByRiskCorrect`: the input is a value, so "the input
  array is not mutated" holds by construction rather than being stated.
