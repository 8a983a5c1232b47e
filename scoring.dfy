/**
 * The answer records a session collects, the report shape, and the
 * length heuristic that all three fallback evaluators share: the average
 * answer length, in characters, picks a base score by three strict
 * thresholds, and the topic scores are fixed offsets from it.
 */
module Scoring {
  import opened PyJson

  /** One submitted answer, paired with the text of the question it answers. */
  datatype AnswerRecord = AnswerRecord(question: Json, answer: string)

  datatype TopicScores = TopicScores(
    technicalKnowledge: int,
    problemSolving: int,
    communication: int,
    codeQuality: int,
    systemDesign: int)

  datatype Report = Report(
    overall: int,
    strengths: seq<string>,
    weaknesses: seq<string>,
    topics: TopicScores)

  /** `sum(len(a.get("answer", "")) for a in answers)`. */
  function TotalChars(answers: seq<AnswerRecord>): nat
    decreases |answers|
  {
    if answers == [] then 0 else TotalChars(answers[..|answers| - 1]) + |answers[|answers| - 1].answer|
  }

  /** `len(answers) or 1`: the divisor is never zero. */
  function Divisor(count: nat): (d: nat)
    ensures d >= 1
    ensures count > 0 ==> d == count
  {
    if count == 0 then 1 else count
  }

  /** The average answer length as Python computes it with true division (exactly, here). */
  function AverageLength(answers: seq<AnswerRecord>): real {
    TotalChars(answers) as real / Divisor(|answers|) as real
  }

  /** The threshold chain written over the average, as the source writes it; `tier3` is 150 or 120. */
  function TierOfAverage(avg: real, tier3: nat): int {
    if avg > 400.0 then 8
    else if avg > 250.0 then 7
    else if avg > tier3 as real then 6
    else 5
  }

  /** `avg > k` is decided exactly on integers by `total > k * divisor`. */
  lemma AboveIffScaled(total: nat, d: nat, k: nat)
    requires d >= 1
    ensures (total as real / d as real > k as real) <==> total > k * d
  {
    var avg := total as real / d as real;
    assert avg * d as real == total as real;
    if total > k * d {
      assert (k * d) as real == k as real * d as real;
      assert avg * d as real > k as real * d as real;
    } else {
      assert (k * d) as real == k as real * d as real;
      assert avg * d as real <= k as real * d as real;
    }
  }

  /** The base score in integers only: it agrees with the chain over the real average and lies in 5..8. */
  function BaseScore(total: nat, count: nat, tier3: nat): (b: int)
    requires tier3 <= 250
    ensures b == TierOfAverage(total as real / Divisor(count) as real, tier3)
    ensures 5 <= b <= 8
  {
    var d := Divisor(count);
    AboveIffScaled(total, d, 400);
    AboveIffScaled(total, d, 250);
    AboveIffScaled(total, d, tier3);
    if total > 400 * d then 8
    else if total > 250 * d then 7
    else if total > tier3 * d then 6
    else 5
  }

  /** For a fixed number of answers, more characters never lower the base score. */
  lemma BaseScoreMonotone(t1: nat, t2: nat, count: nat, tier3: nat)
    requires tier3 <= 250 && t1 <= t2
    ensures BaseScore(t1, count, tier3) <= BaseScore(t2, count, tier3)
  {
  }

  /** No answers: the divisor is 1, the total 0, and the base the lowest tier. */
  lemma NoAnswersScoreFive(tier3: nat)
    requires tier3 <= 250
    ensures BaseScore(TotalChars([]), 0, tier3) == 5
  {
  }

  /** The lower third threshold (120) never gives a lower base than 150, and differs exactly on averages in (120, 150]. */
  lemma ThirdTierComparison(total: nat, count: nat)
    ensures BaseScore(total, count, 120) >= BaseScore(total, count, 150)
    ensures (BaseScore(total, count, 120) != BaseScore(total, count, 150))
            <==> (120 * Divisor(count) < total <= 150 * Divisor(count))
  {
  }

  /** Scores derived from a base: problem solving one above, communication one below but at least 1, the rest equal. */
  predicate DerivedFrom(t: TopicScores, base: int) {
    t.technicalKnowledge == base && t.codeQuality == base && t.systemDesign == base
    && t.problemSolving == base + 1
    && t.communication == (if base - 1 > 1 then base - 1 else 1)
  }

  /** Every score of a heuristic report lies in 4..9. */
  predicate ScoresInRange(r: Report) {
    5 <= r.overall <= 8
    && 4 <= r.topics.technicalKnowledge <= 9 && 4 <= r.topics.problemSolving <= 9
    && 4 <= r.topics.communication <= 9 && 4 <= r.topics.codeQuality <= 9
    && 4 <= r.topics.systemDesign <= 9
  }

  /** The report every fallback builds around its base score. */
  function HeuristicReport(base: int, strengths: seq<string>, weaknesses: seq<string>): (r: Report)
    requires 5 <= base <= 8
    ensures r.overall == base && DerivedFrom(r.topics, base) && ScoresInRange(r)
    ensures r.strengths == strengths && r.weaknesses == weaknesses
  {
    Report(base, strengths, weaknesses,
      TopicScores(base, base + 1, if base - 1 > 1 then base - 1 else 1, base, base))
  }

  function TopicScoresJson(t: TopicScores): Json {
    Object(map[
      "technical_knowledge" := Num(t.technicalKnowledge),
      "problem_solving" := Num(t.problemSolving),
      "communication" := Num(t.communication),
      "code_quality" := Num(t.codeQuality),
      "system_design" := Num(t.systemDesign)])
  }

  /** The report as the dictionary the templates receive. */
  function ReportJson(r: Report): (j: Json)
    ensures j.Object? && Truthy(j)
    ensures "overall_score" in j.fields && "strengths" in j.fields
    ensures j.fields["overall_score"] == Num(r.overall)
  {
    var m := map[
      "overall_score" := Num(r.overall),
      "strengths" := StrList(r.strengths),
      "weaknesses" := StrList(r.weaknesses),
      "topic_scores" := TopicScoresJson(r.topics)];
    assert "overall_score" in m;
    Object(m)
  }
}
