/** The score classification of the feedback page: the overall level, the
    gauge percentage, the confetti cut-off, the displayed score and the
    colour of each category badge. An absent feedback is `None`. */
module FeedbackDisplay {
  import opened Common
  import opened Text

  datatype ScoreLevel = Excellent | Good | Average | NeedsImprovement

  /** Levels in increasing order of merit. */
  function LevelRank(l: ScoreLevel): nat
  {
    match l
    case NeedsImprovement => 0
    case Average => 1
    case Good => 2
    case Excellent => 3
  }

  /** The 80 / 60 / 40 thresholds. */
  function Level(score: int): (l: ScoreLevel)
    ensures l == Excellent <==> score >= 80
    ensures l == Good <==> 60 <= score < 80
    ensures l == Average <==> 40 <= score < 60
    ensures l == NeedsImprovement <==> score < 40
  {
    if score >= 80 then Excellent
    else if score >= 60 then Good
    else if score >= 40 then Average
    else NeedsImprovement
  }

  /** `scoreLevel`: a missing score compares false with every threshold. */
  function ScoreLevelOf(totalScore: Option<int>): ScoreLevel
  {
    match totalScore
    case None => NeedsImprovement
    case Some(s) => Level(s)
  }

  /** `feedback?.totalScore || 0`. */
  function ScorePercentage(totalScore: Option<int>): (p: int)
    ensures p == totalScore.GetOr(0)
  {
    if totalScore.Some? && totalScore.value != 0 then totalScore.value else 0
  }

  /** Confetti fires for a present total score of at least 75. */
  predicate Confetti(totalScore: Option<int>)
  {
    totalScore.Some? && totalScore.value >= 75
  }

  /** `feedback?.totalScore || "N/A"`: a missing or zero score reads N/A. */
  function DisplayedScore(totalScore: Option<int>): (s: string)
    ensures totalScore == None || totalScore == Some(0) <==> s == "N/A"
    ensures totalScore.Some? && totalScore.value != 0 ==> s == IntToString(totalScore.value)
  {
    if totalScore.Some? && totalScore.value != 0 then
      var s := IntToString(totalScore.value);
      assert s[0] != "N/A"[0];
      s
    else "N/A"
  }

  /** Without feedback the level is the lowest one and the gauge is empty. */
  lemma MissingFeedback()
    ensures ScoreLevelOf(None) == NeedsImprovement
    ensures ScorePercentage(None) == 0
    ensures !Confetti(None) && DisplayedScore(None) == "N/A"
  {
  }

  /** A higher score never gets a lower level. */
  lemma LevelMonotone(a: int, b: int)
    requires a <= b
    ensures LevelRank(Level(a)) <= LevelRank(Level(b))
  {
  }

  /** Confetti means the level is good or excellent. */
  lemma ConfettiIsGoodOrBetter(totalScore: Option<int>)
    requires Confetti(totalScore)
    ensures ScoreLevelOf(totalScore) in {Good, Excellent}
  {
  }

  /** The badge colours of a category score. */
  datatype Tone = Green | Blue | Yellow | Red

  /** The badge of a category: green, blue, yellow or red by 80 / 60 / 40. */
  function CategoryTone(score: int): (t: Tone)
    ensures t == Green <==> score >= 80
    ensures t == Blue <==> 60 <= score < 80
    ensures t == Yellow <==> 40 <= score < 60
    ensures t == Red <==> score < 40
  {
    if score >= 80 then Green
    else if score >= 60 then Blue
    else if score >= 40 then Yellow
    else Red
  }

  function ToneOfLevel(l: ScoreLevel): Tone
  {
    match l
    case Excellent => Green
    case Good => Blue
    case Average => Yellow
    case NeedsImprovement => Red
  }

  /** Category badges follow the thresholds of the overall level. */
  lemma CategoryToneFollowsLevel(score: int)
    ensures CategoryTone(score) == ToneOfLevel(Level(score))
  {
  }
}
