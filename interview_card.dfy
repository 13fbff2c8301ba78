/** The card of one interview in the interview list: the normalised type,
    the score badge and its colours, and the action link. */
module InterviewCard {
  import opened Common
  import opened Text
  import opened InterviewTypes
  import GeneralActions

  /** `/mix/gi.test(type) ? "Mixed" : type`. Without the `u` flag the `i`
      flag folds only ASCII letters, so this is an ASCII-lowered search. */
  function NormalizedType(interviewType: string): (r: string)
    ensures Occurs(Lower(interviewType), "mix") ==> r == "Mixed"
    ensures !Occurs(Lower(interviewType), "mix") ==> r == interviewType
  {
    IncludesIffOccurs(Lower(interviewType), "mix");
    if Includes(Lower(interviewType), "mix") then "Mixed" else interviewType
  }

  /** The card fetches its feedback only when it has both a user and an
      interview id. */
  function CardFeedback(feedbacks: seq<Feedback>, id: Option<string>, userId: Option<string>): (f: Option<Feedback>)
    ensures !(Truthy(userId) && Truthy(id)) ==> f == None
    ensures Truthy(userId) && Truthy(id) ==> f == GeneralActions.GetFeedbackByInterviewId(feedbacks, id.value, userId.value)
  {
    if Truthy(userId) && Truthy(id)
    then GeneralActions.GetFeedbackByInterviewId(feedbacks, id.value, userId.value)
    else None
  }

  /** `hasScore ? feedback.totalScore : null`: a score exists only for a
      feedback with a non-zero total. */
  function Score(feedback: Option<Feedback>): (s: Option<int>)
    ensures s.Some? <==> feedback.Some? && feedback.value.totalScore != 0
    ensures s.Some? ==> s.value == feedback.value.totalScore
  {
    if feedback.Some? && feedback.value.totalScore != 0 then Some(feedback.value.totalScore) else None
  }

  /** What the score badge shows: the score out of 100, or "Pending". */
  function ScoreBadge(feedback: Option<Feedback>): (b: string)
    ensures Score(feedback).None? <==> b == "Pending"
    ensures Score(feedback).Some? ==> b == IntToString(Score(feedback).value) + "/100"
  {
    match Score(feedback)
    case Some(s) =>
      var b := IntToString(s) + "/100";
      assert b[0] != "Pending"[0];
      b
    case None => "Pending"
  }

  datatype Tone = Gray | Green | Amber | Red

  /** The colour pair of each tone: text classes and background classes. */
  function ToneClasses(t: Tone): (string, string)
  {
    match t
    case Gray => ("text-gray-700 dark:text-gray-300", "bg-gray-100 dark:bg-gray-700")
    case Green => ("text-green-700 dark:text-green-400", "bg-green-100 dark:bg-green-900/30")
    case Amber => ("text-amber-700 dark:text-amber-400", "bg-amber-100 dark:bg-amber-900/30")
    case Red => ("text-red-700 dark:text-red-400", "bg-red-100 dark:bg-red-900/30")
  }

  /** Green from 80, amber from 60, red below, gray without a score. */
  function ScoreTone(score: Option<int>): (t: Tone)
    ensures t == Gray <==> score.None?
    ensures t == Green <==> score.Some? && score.value >= 80
    ensures t == Amber <==> score.Some? && 60 <= score.value < 80
    ensures t == Red <==> score.Some? && score.value < 60
  {
    match score
    case None => Gray
    case Some(s) => if s >= 80 then Green else if s >= 60 then Amber else Red
  }

  /** The colour assignment: gray by default, overwritten once a score exists. */
  method ScoreColors(score: Option<int>) returns (scoreColor: string, scoreBg: string)
    ensures (scoreColor, scoreBg) == ToneClasses(ScoreTone(score))
  {
    scoreColor := "text-gray-700 dark:text-gray-300";
    scoreBg := "bg-gray-100 dark:bg-gray-700";
    if score.Some? {
      if score.value >= 80 {
        scoreColor := "text-green-700 dark:text-green-400";
        scoreBg := "bg-green-100 dark:bg-green-900/30";
      } else if score.value >= 60 {
        scoreColor := "text-amber-700 dark:text-amber-400";
        scoreBg := "bg-amber-100 dark:bg-amber-900/30";
      } else {
        scoreColor := "text-red-700 dark:text-red-400";
        scoreBg := "bg-red-100 dark:bg-red-900/30";
      }
    }
  }

  /** A zero total is a feedback without a score: the badge reads Pending
      and the colours stay gray. */
  lemma ZeroScoreIsPending(f: Feedback)
    requires f.totalScore == 0
    ensures ScoreBadge(Some(f)) == "Pending" && ScoreTone(Score(Some(f))) == Gray
  {
  }

  /** The action link and its label: the feedback page when a feedback
      exists, the interview itself otherwise. */
  function CardAction(feedback: Option<Feedback>, id: Option<string>): (action: (string, string))
    ensures feedback.Some? ==> action == ("/interviews/interview/" + Interpolate(id) + "/feedback", "Check Feedback")
    ensures feedback.None? ==> action == ("/interviews/interview/" + Interpolate(id), "Start Interview")
  {
    if feedback.Some?
    then ("/interviews/interview/" + Interpolate(id) + "/feedback", "Check Feedback")
    else ("/interviews/interview/" + Interpolate(id), "Start Interview")
  }

  const NotCompletedText := "Interview not completed yet. Take this interview to receive personalized feedback."

  /** The preview text: the final assessment when there is a non-empty one.
      The preview line is never blank. */
  function PreviewText(feedback: Option<Feedback>): (s: string)
    ensures s != ""
    ensures feedback.Some? && feedback.value.finalAssessment != "" ==> s == feedback.value.finalAssessment
    ensures !(feedback.Some? && feedback.value.finalAssessment != "") ==> s == NotCompletedText
  {
    if feedback.Some? && feedback.value.finalAssessment != "" then feedback.value.finalAssessment else NotCompletedText
  }

  /** A card with an interview id and a user links to the interview's
      feedback page, labelled "Check Feedback", exactly when the store holds
      a feedback of this user for this interview; otherwise it links to the
      interview itself. */
  lemma CardLinksFeedbackIffStored(feedbacks: seq<Feedback>, id: string, userId: string)
    requires id != "" && userId != ""
    ensures var stored := exists i :: 0 <= i < |feedbacks| && GeneralActions.FeedbackMatches(feedbacks[i], id, userId);
      var action := CardAction(CardFeedback(feedbacks, Some(id), Some(userId)), Some(id));
      && (action.1 == "Check Feedback" <==> stored)
      && (action.0 == "/interviews/interview/" + id + "/feedback" <==> stored)
      && (!stored ==> action.0 == "/interviews/interview/" + id)
  {
    var plain := "/interviews/interview/" + id;
    assert |plain + "/feedback"| != |plain|;
  }
}
