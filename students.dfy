/** Risk scoring of a student record (`calculateRiskLevel`) and the risk
    statistics over a roster (`getRiskStats`), src/lib/firebase/students.ts. */
module Students {
  import opened Types
  import opened Seqs

  /** The result of `calculateRiskLevel`. */
  datatype Assessment = Assessment(riskLevel: RiskLevel, riskScore: int, riskFactors: seq<string>)

  /** Where a measure falls against a category's two thresholds. */
  datatype Band = Severe | Elevated | Normal

  /** One scoring category: a measure below `severeBelow` adds `severePoints`
      and `severeLabel`; otherwise one below `elevatedBelow` adds
      `elevatedPoints` and `elevatedLabel`; otherwise nothing. */
  datatype Rule = Rule(
    severeBelow: real,
    elevatedBelow: real,
    severePoints: nat,
    elevatedPoints: nat,
    severeLabel: string,
    elevatedLabel: string)

  const AttendanceRule := Rule(60.0, 75.0, 30, 15, "Low attendance", "Below average attendance")
  const QuizRule := Rule(50.0, 65.0, 30, 15, "Poor quiz performance", "Below average quiz scores")
  const CompletionRule := Rule(50.0, 70.0, 20, 10, "Low assignment completion", "Below average assignment completion")
  const EngagementRule := Rule(40.0, 60.0, 20, 10, "Low engagement", "Below average engagement")

  /** The four categories' bands, in the order they are evaluated. */
  datatype Bands = Bands(attendance: Band, quiz: Band, completion: Band, engagement: Band)

  function BandOf(rule: Rule, x: real): Band
  {
    if x < rule.severeBelow then Severe
    else if x < rule.elevatedBelow then Elevated
    else Normal
  }

  function Points(rule: Rule, b: Band): nat
  {
    match b
    case Severe => rule.severePoints
    case Elevated => rule.elevatedPoints
    case Normal => 0
  }

  /** The factor a category contributes: its label, or nothing. */
  function Factor(rule: Rule, b: Band): seq<string>
  {
    match b
    case Severe => [rule.severeLabel]
    case Elevated => [rule.elevatedLabel]
    case Normal => []
  }

  /** `reduce((a, b) => a + b, 0)`. */
  function Sum(xs: seq<real>): real
  {
    if xs == [] then 0.0 else xs[0] + Sum(xs[1..])
  }

  /** The quiz average, taken as 0 for an empty list. */
  function QuizAverage(scores: seq<real>): real
  {
    if |scores| > 0 then Sum(scores) / (|scores| as real) else 0.0
  }

  /** The completion percentage, taken as 0 when no assignment was set. */
  function CompletionRate(submitted: nat, total: nat): real
  {
    if total > 0 then (submitted as real) / (total as real) * 100.0 else 0.0
  }

  function StudentBands(s: Student): Bands
  {
    Bands(
      BandOf(AttendanceRule, s.attendancePercentage),
      BandOf(QuizRule, QuizAverage(s.quizScores)),
      BandOf(CompletionRule, CompletionRate(s.assignmentsSubmitted, s.totalAssignments)),
      BandOf(EngagementRule, s.engagementScore))
  }

  /** The sum of the points of the four categories, before clamping. */
  function RawScore(b: Bands): (r: nat)
    ensures r <= 100
  {
    Points(AttendanceRule, b.attendance) + Points(QuizRule, b.quiz)
    + Points(CompletionRule, b.completion) + Points(EngagementRule, b.engagement)
  }

  /** The factor labels, in the order attendance, quiz, completion, engagement. */
  function Factors(b: Bands): seq<string>
  {
    Factor(AttendanceRule, b.attendance) + Factor(QuizRule, b.quiz)
    + Factor(CompletionRule, b.completion) + Factor(EngagementRule, b.engagement)
  }

  /** The level thresholds: 70 and above is High, 40 and above Medium. */
  function LevelOf(score: int): RiskLevel
  {
    if score >= 70 then High else if score >= 40 then Medium else Low
  }

  function Min(a: int, b: int): int
  {
    if a <= b then a else b
  }

  /** What `calculateRiskLevel` computes: the level is taken from the score
      before it is clamped to 100, the score after. */
  function Assess(s: Student): (a: Assessment)
    ensures 0 <= a.riskScore <= 100
    ensures a.riskLevel == LevelOf(a.riskScore)
    ensures |a.riskFactors| <= 4
  {
    var b := StudentBands(s);
    Assessment(LevelOf(RawScore(b)), Min(100, RawScore(b)), Factors(b))
  }

  /** `calculateRiskLevel`: four if/else blocks that add points to a running
      score and push factor labels, then the level and the clamped score. */
  method CalculateRiskLevel(s: Student) returns (a: Assessment)
    ensures a == Assess(s)
    ensures 0 <= a.riskScore <= 100 && a.riskLevel == LevelOf(a.riskScore)
  {
    var riskFactors: seq<string> := [];
    var riskScore := 0;

    if s.attendancePercentage < 60.0 {
      riskScore := riskScore + 30;
      riskFactors := riskFactors + ["Low attendance"];
    } else if s.attendancePercentage < 75.0 {
      riskScore := riskScore + 15;
      riskFactors := riskFactors + ["Below average attendance"];
    }
    ghost var b := StudentBands(s);
    assert riskScore == Points(AttendanceRule, b.attendance);
    assert riskFactors == Factor(AttendanceRule, b.attendance);

    var avgQuizScore := if |s.quizScores| > 0 then Sum(s.quizScores) / (|s.quizScores| as real) else 0.0;
    if avgQuizScore < 50.0 {
      riskScore := riskScore + 30;
      riskFactors := riskFactors + ["Poor quiz performance"];
    } else if avgQuizScore < 65.0 {
      riskScore := riskScore + 15;
      riskFactors := riskFactors + ["Below average quiz scores"];
    }
    assert riskScore == Points(AttendanceRule, b.attendance) + Points(QuizRule, b.quiz);
    assert riskFactors == Factor(AttendanceRule, b.attendance) + Factor(QuizRule, b.quiz);

    var completionRate := if s.totalAssignments > 0
      then (s.assignmentsSubmitted as real) / (s.totalAssignments as real) * 100.0
      else 0.0;
    if completionRate < 50.0 {
      riskScore := riskScore + 20;
      riskFactors := riskFactors + ["Low assignment completion"];
    } else if completionRate < 70.0 {
      riskScore := riskScore + 10;
      riskFactors := riskFactors + ["Below average assignment completion"];
    }
    assert riskScore == Points(AttendanceRule, b.attendance) + Points(QuizRule, b.quiz)
                        + Points(CompletionRule, b.completion);
    assert riskFactors == Factor(AttendanceRule, b.attendance) + Factor(QuizRule, b.quiz)
                          + Factor(CompletionRule, b.completion);

    if s.engagementScore < 40.0 {
      riskScore := riskScore + 20;
      riskFactors := riskFactors + ["Low engagement"];
    } else if s.engagementScore < 60.0 {
      riskScore := riskScore + 10;
      riskFactors := riskFactors + ["Below average engagement"];
    }
    assert riskScore == RawScore(b) && riskFactors == Factors(b);

    var riskLevel: RiskLevel;
    if riskScore >= 70 {
      riskLevel := High;
    } else if riskScore >= 40 {
      riskLevel := Medium;
    } else {
      riskLevel := Low;
    }

    a := Assessment(riskLevel, Min(100, riskScore), riskFactors);
  }

  /** Each category falls in exactly one band, given by its two thresholds,
      and contributes the matching points and label. */
  lemma CategoryBands(s: Student)
    ensures var b := StudentBands(s);
      && (b.attendance == Severe <==> s.attendancePercentage < 60.0)
      && (b.attendance == Elevated <==> 60.0 <= s.attendancePercentage < 75.0)
      && (b.attendance == Normal <==> s.attendancePercentage >= 75.0)
      && (b.quiz == Severe <==> QuizAverage(s.quizScores) < 50.0)
      && (b.quiz == Elevated <==> 50.0 <= QuizAverage(s.quizScores) < 65.0)
      && (b.quiz == Normal <==> QuizAverage(s.quizScores) >= 65.0)
      && (b.engagement == Severe <==> s.engagementScore < 40.0)
      && (b.engagement == Elevated <==> 40.0 <= s.engagementScore < 60.0)
      && (b.engagement == Normal <==> s.engagementScore >= 60.0)
    ensures var b := StudentBands(s);
      var rate := CompletionRate(s.assignmentsSubmitted, s.totalAssignments);
      && (b.completion == Severe <==> rate < 50.0)
      && (b.completion == Elevated <==> 50.0 <= rate < 70.0)
      && (b.completion == Normal <==> rate >= 70.0)
  {
  }

  /** Each band's points and label, per category. */
  lemma CategoryPoints()
    ensures Points(AttendanceRule, Severe) == 30 && Factor(AttendanceRule, Severe) == ["Low attendance"]
    ensures Points(AttendanceRule, Elevated) == 15 && Factor(AttendanceRule, Elevated) == ["Below average attendance"]
    ensures Points(QuizRule, Severe) == 30 && Factor(QuizRule, Severe) == ["Poor quiz performance"]
    ensures Points(QuizRule, Elevated) == 15 && Factor(QuizRule, Elevated) == ["Below average quiz scores"]
    ensures Points(CompletionRule, Severe) == 20 && Factor(CompletionRule, Severe) == ["Low assignment completion"]
    ensures Points(CompletionRule, Elevated) == 10
            && Factor(CompletionRule, Elevated) == ["Below average assignment completion"]
    ensures Points(EngagementRule, Severe) == 20 && Factor(EngagementRule, Severe) == ["Low engagement"]
    ensures Points(EngagementRule, Elevated) == 10 && Factor(EngagementRule, Elevated) == ["Below average engagement"]
    ensures forall r :: Points(r, Normal) == 0 && Factor(r, Normal) == []
  {
  }

  /** The average of a non-empty list is below a threshold exactly when the
      sum is below the threshold times the length. */
  lemma AverageBelow(scores: seq<real>, t: real)
    requires |scores| > 0
    ensures QuizAverage(scores) < t <==> Sum(scores) < t * (|scores| as real)
  {
  }

  /** With assignments set, completion is below `t` percent exactly when
      100 times the submitted count is below `t` times the total. */
  lemma CompletionBelow(submitted: nat, total: nat, t: real)
    requires total > 0
    ensures CompletionRate(submitted, total) < t <==> (submitted as real) * 100.0 < t * (total as real)
  {
  }

  /** An empty quiz list counts as an average of 0: the worst quiz band. */
  lemma EmptyQuizzesScoreWorst(s: Student)
    requires s.quizScores == []
    ensures StudentBands(s).quiz == Severe
    ensures "Poor quiz performance" in Assess(s).riskFactors
  {
    var b := StudentBands(s);
    assert Assess(s).riskFactors == Factor(AttendanceRule, b.attendance) + ["Poor quiz performance"]
      + Factor(CompletionRule, b.completion) + Factor(EngagementRule, b.engagement);
  }

  /** No assignments set counts as 0% completion: the worst completion band,
      and no division takes place. */
  lemma NoAssignmentsScoreWorst(s: Student)
    requires s.totalAssignments == 0
    ensures StudentBands(s).completion == Severe
    ensures "Low assignment completion" in Assess(s).riskFactors
  {
    var b := StudentBands(s);
    assert Assess(s).riskFactors == Factor(AttendanceRule, b.attendance) + Factor(QuizRule, b.quiz)
      + ["Low assignment completion"] + Factor(EngagementRule, b.engagement);
  }

  /** The level thresholds, as three if-and-only-ifs. */
  lemma LevelThresholds(score: int)
    ensures LevelOf(score) == High <==> score >= 70
    ensures LevelOf(score) == Medium <==> 40 <= score < 70
    ensures LevelOf(score) == Low <==> score < 40
  {
  }

  function LevelRank(l: RiskLevel): nat
  {
    match l
    case Low => 0
    case Medium => 1
    case High => 2
  }

  /** A higher score never gives a lower level. */
  lemma LevelMonotone(a: int, b: int)
    requires a <= b
    ensures LevelRank(LevelOf(a)) <= LevelRank(LevelOf(b))
  {
  }

  function BandFired(b: Band): nat
  {
    if b == Normal then 0 else 1
  }

  /** How many of the four categories fired. */
  function FiredCount(b: Bands): nat
  {
    BandFired(b.attendance) + BandFired(b.quiz) + BandFired(b.completion) + BandFired(b.engagement)
  }

  /** One factor per category that fired; the score is 0 exactly when no
      factor fired, and the clamp to 100 never changes the sum. */
  lemma FactorCount(s: Student)
    ensures var b := StudentBands(s);
      && |Assess(s).riskFactors| == FiredCount(b)
      && Assess(s).riskScore == RawScore(b)
      && (Assess(s).riskScore == 0 <==> Assess(s).riskFactors == [])
  {
  }

  /** The labels a category can contribute. */
  function Labels(rule: Rule): set<string>
  {
    {rule.severeLabel, rule.elevatedLabel}
  }

  lemma FactorFromLabels(rule: Rule, b: Band)
    ensures |Factor(rule, b)| <= 1 && Distinct(Factor(rule, b))
    ensures forall x :: x in Factor(rule, b) ==> x in Labels(rule)
  {
  }

  /** No factor label appears twice in an assessment. */
  lemma FactorsDistinct(s: Student)
    ensures Distinct(Assess(s).riskFactors)
  {
    var b := StudentBands(s);
    var fa, fq := Factor(AttendanceRule, b.attendance), Factor(QuizRule, b.quiz);
    var fc, fe := Factor(CompletionRule, b.completion), Factor(EngagementRule, b.engagement);
    FactorFromLabels(AttendanceRule, b.attendance);
    FactorFromLabels(QuizRule, b.quiz);
    FactorFromLabels(CompletionRule, b.completion);
    FactorFromLabels(EngagementRule, b.engagement);
    DistinctConcat(fa, fq);
    DistinctConcat(fa + fq, fc);
    DistinctConcat(fa + fq + fc, fe);
  }

  /** The totals `getRiskStats` returns. */
  datatype RiskStats = RiskStats(total: nat, high: nat, medium: nat, low: nat)

  /** `getRiskStats` over the fetched students: the roster size and the
      number of students at each level, which add up to the total. */
  function GetRiskStats(students: seq<Student>): (r: RiskStats)
    ensures r.total == |students|
    ensures r.high + r.medium + r.low == r.total
    ensures r.high == |AtLevel(students, High)| && r.medium == |AtLevel(students, Medium)|
            && r.low == |AtLevel(students, Low)|
  {
    LevelCountsPartition(students);
    RiskStats(|students|, |AtLevel(students, High)|, |AtLevel(students, Medium)|, |AtLevel(students, Low)|)
  }
}
