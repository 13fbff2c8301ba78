/** The records the interview flow passes around (the ambient declarations
    of the application's type file). Timestamps are integers (milliseconds
    since the epoch); identifiers are strings. */
module InterviewTypes {
  import opened Common

  /** One entry of the per-category breakdown of a feedback. */
  datatype CategoryScore = CategoryScore(name: string, score: int, comment: string)

  /** A stored feedback row. */
  datatype Feedback = Feedback(
    id: string,
    interviewId: string,
    userId: string,
    totalScore: int,
    categoryScores: seq<CategoryScore>,
    strengths: seq<string>,
    areasForImprovement: seq<string>,
    finalAssessment: string,
    createdAt: int)

  /** A stored interview row. */
  datatype Interview = Interview(
    id: string,
    userId: string,
    role: string,
    level: string,
    interviewType: string,
    questions: seq<string>,
    techstack: seq<string>,
    finalized: bool,
    createdAt: int,
    updatedAt: int)

  /** One finalised utterance of the conversation: `{ role, content }`. */
  datatype TranscriptTurn = TranscriptTurn(role: string, content: string)

  /** The argument of `createFeedback`. */
  datatype CreateFeedbackParams = CreateFeedbackParams(
    interviewId: string,
    userId: string,
    transcript: seq<TranscriptTurn>,
    feedbackId: Option<string>)

  /** `type: "generate" | "practice"` of the interview agent. */
  datatype AgentMode = Generate | Practice

  /** The properties the interview agent component is rendered with. */
  datatype AgentProps = AgentProps(
    userName: string,
    userId: Option<string>,
    interviewId: Option<string>,
    feedbackId: Option<string>,
    mode: AgentMode,
    questions: Option<seq<string>>)

  /** How a template literal renders an optional string: `undefined` when absent. */
  function Interpolate(s: Option<string>): string
  {
    match s
    case Some(v) => v
    case None => "undefined"
  }
}
