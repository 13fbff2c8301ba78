/** The client-side controller of a live voice interview: the call status
    machine, the transcript it accumulates, the call-duration counter, the
    commands it sends to the voice SDK and the decision it takes once the
    call is over. Each SDK event handler is one method; none of them
    inspects the current status, exactly as in the component. */
module Agent {
  import opened Common
  import opened Text
  import opened InterviewTypes
  import GeneralActions

  datatype CallStatus = Inactive | Connecting | Active | Finished

  /** A `message` event of the voice SDK: its `type`, its `transcriptType`,
      the speaker role and the text. */
  datatype VoiceMessage = VoiceMessage(kind: string, transcriptType: string, role: string, transcript: string)

  /** What the session asks of the voice SDK. */
  datatype BridgeCommand =
    | StartWorkflow(workflowId: string, username: string, userid: Option<string>)
    | StartInterviewer(questions: string)
    | Stop

  /** What the completion effect does for the current state. */
  datatype Completion =
    | Wait
    | Navigate(path: string)
    | RequestFeedback(interviewId: Option<string>, userId: Option<string>,
                      transcript: seq<TranscriptTurn>, feedbackId: Option<string>)

  const InterviewsPath := "/interviews"

  // ---------------------------------------------------------------------------
  // Formatted question list

  function Bullets(qs: seq<string>): (r: seq<string>)
    ensures |r| == |qs|
    ensures forall i :: 0 <= i < |qs| ==> r[i] == "- " + qs[i]
  {
    seq(|qs|, i requires 0 <= i < |qs| => "- " + qs[i])
  }

  /** `questions?.map((q) => `- ${q}`).join("\n") || ""`. */
  function FormatQuestions(questions: Option<seq<string>>): string
  {
    match questions
    case None => ""
    case Some(qs) => Join(Bullets(qs), "\n")
  }

  /** Reads a formatted question list back: one question per line, each
      after its `- ` bullet. */
  function ParseQuestions(s: string): seq<string>
  {
    if s == "" then []
    else
      var lines := SplitOn(s, '\n');
      seq(|lines|, i requires 0 <= i < |lines| => if |lines[i]| >= 2 then lines[i][2..] else lines[i])
  }

  /** Without questions, or with an empty list, the interviewer gets `""`. */
  lemma FormatQuestionsAbsent()
    ensures FormatQuestions(None) == ""
    ensures FormatQuestions(Some([])) == ""
  {
  }

  /** The formatted list holds every question, in input order, one per line:
      reading it back gives the questions again. */
  lemma FormatQuestionsRoundTrip(qs: seq<string>)
    requires forall i :: 0 <= i < |qs| ==> '\n' !in qs[i]
    ensures ParseQuestions(FormatQuestions(Some(qs))) == qs
  {
    if qs != [] {
      var lines := Bullets(qs);
      forall i | 0 <= i < |lines| ensures '\n' !in lines[i] {
        assert lines[i] == "- " + qs[i];
      }
      SplitJoin(lines, '\n');
      assert Join(lines, "\n") != "" by {
        JoinFirstNonEmpty(lines, "\n");
      }
      var r := ParseQuestions(FormatQuestions(Some(qs)));
      forall i | 0 <= i < |qs| ensures r[i] == qs[i] {
        assert lines[i][2..] == qs[i];
      }
    }
  }

  lemma {:induction false} JoinFirstNonEmpty(parts: seq<string>, sep: string)
    requires |parts| >= 1 && parts[0] != ""
    ensures |Join(parts, sep)| >= |parts[0]| > 0
  {
  }

  // ---------------------------------------------------------------------------
  // Timer label

  /** `formatTime`: `MM:SS`, minutes and seconds each zero-padded to two digits. */
  function FormatTime(seconds: nat): string
  {
    PadZeros(NatToString(seconds / 60), 2) + ":" + PadZeros(NatToString(seconds % 60), 2)
  }

  /** Reads an `M:S` label back into seconds. */
  function ParseTime(shown: string): Option<nat>
  {
    if ':' !in shown then None
    else
      var k := IndexOf(shown, ':');
      if AllDigits(shown[..k]) && AllDigits(shown[k + 1..])
      then Some(DigitsValue(shown[..k]) * 60 + DigitsValue(shown[k + 1..]))
      else None
  }

  lemma ShortNumber(n: nat)
    requires n < 100
    ensures |NatToString(n)| <= 2
  {
  }

  /** Digits, a colon, digits: the colon is the first one, between the two. */
  lemma ColonSplit(m: string, s: string)
    requires AllDigits(m)
    ensures ':' in m + ":" + s
    ensures var t := m + ":" + s; IndexOf(t, ':') == |m| && t[..|m|] == m && t[|m| + 1..] == s
  {
    assert ':' !in m by {
      forall i | 0 <= i < |m| ensures m[i] != ':' {
        assert IsDigit(m[i]);
      }
    }
    IndexOfAfterFree(m, ':', s);
    var t := m + ":" + s;
    assert t[..|m|] == m;
    assert t[|m| + 1..] == s;
  }

  /** The label is minutes, a colon and exactly two digits of seconds; the
      minutes take at least two digits; and the two numbers are the minutes
      and the remaining seconds of the duration. */
  lemma FormatTimeSpec(seconds: nat)
    ensures ':' in FormatTime(seconds)
    ensures var t := FormatTime(seconds); var k := IndexOf(t, ':');
      && k >= 2 && |t| == k + 3
      && AllDigits(t[..k]) && AllDigits(t[k + 1..])
      && DigitsValue(t[..k]) == seconds / 60
      && DigitsValue(t[k + 1..]) == seconds % 60
  {
    var m := PadZeros(NatToString(seconds / 60), 2);
    var s := PadZeros(NatToString(seconds % 60), 2);
    PadZerosValue(NatToString(seconds / 60), 2);
    PadZerosValue(NatToString(seconds % 60), 2);
    NatToStringValue(seconds / 60);
    NatToStringValue(seconds % 60);
    ShortNumber(seconds % 60);
    ColonSplit(m, s);
  }

  /** Reading the label back gives the duration. */
  lemma ParseFormatTime(seconds: nat)
    ensures ParseTime(FormatTime(seconds)) == Some(seconds)
  {
    FormatTimeSpec(seconds);
  }

  // ---------------------------------------------------------------------------
  // Decisions

  /** What `handleCall` starts: the question-generation workflow with the
      user's name and id, or the interviewer persona with the question list. */
  function StartCommand(props: AgentProps, workflowId: string): (c: BridgeCommand)
    ensures props.mode == Generate ==> c == StartWorkflow(workflowId, props.userName, props.userId)
    ensures props.mode == Practice ==> c == StartInterviewer(FormatQuestions(props.questions))
  {
    if props.mode == Generate then StartWorkflow(workflowId, props.userName, props.userId)
    else StartInterviewer(FormatQuestions(props.questions))
  }

  /** The completion effect: it acts only on a finished call with at least one
      transcript turn while processing; the generation mode then goes to the
      interview list and never asks for feedback, the practice mode asks for
      feedback on the whole transcript. */
  function CompletionStep(status: CallStatus, messages: seq<TranscriptTurn>, isProcessing: bool,
                          props: AgentProps): (c: Completion)
    ensures !(status == Finished && |messages| > 0 && isProcessing) ==> c == Wait
    ensures props.mode == Generate ==> !c.RequestFeedback?
    ensures c.Navigate? ==> c.path == InterviewsPath
    ensures c.RequestFeedback? <==> status == Finished && |messages| > 0 && isProcessing && props.mode.Practice?
    ensures c.RequestFeedback? ==>
              && c.transcript == messages && c.interviewId == props.interviewId
              && c.userId == props.userId && c.feedbackId == props.feedbackId
  {
    if status == Finished && |messages| > 0 && isProcessing then
      match props.mode
      case Generate => Navigate(InterviewsPath)
      case Practice => RequestFeedback(props.interviewId, props.userId, messages, props.feedbackId)
    else Wait
  }

  /** The interview's feedback page. */
  function FeedbackPage(interviewId: Option<string>): string
  {
    "/interviews/interview/" + Interpolate(interviewId) + "/feedback"
  }

  /** Where the session goes once `createFeedback` has answered: the feedback
      page when it reports success with an id, the interview list otherwise. */
  function AfterFeedback(result: GeneralActions.CreateFeedbackResult, interviewId: Option<string>): (path: string)
    ensures result.success && Truthy(result.feedbackId) ==> path == FeedbackPage(interviewId)
    ensures !(result.success && Truthy(result.feedbackId)) ==> path == InterviewsPath
  {
    if result.success && Truthy(result.feedbackId) then FeedbackPage(interviewId) else InterviewsPath
  }

  /** In practice mode the interviewer receives the questions so that they
      read back unchanged, in order (none at all when there are none), as
      long as no question holds a line break. */
  lemma StartCommandSendsQuestions(props: AgentProps, workflowId: string)
    requires props.mode == Practice
    requires props.questions.Some? ==>
               forall i :: 0 <= i < |props.questions.value| ==> '\n' !in props.questions.value[i]
    ensures StartCommand(props, workflowId).StartInterviewer?
    ensures ParseQuestions(StartCommand(props, workflowId).questions) == props.questions.GetOr([])
  {
    match props.questions
    case None =>
    case Some(qs) => FormatQuestionsRoundTrip(qs);
  }

  /** A message is recorded exactly when it is a final transcript. */
  predicate IsFinalTranscript(m: VoiceMessage)
  {
    m.kind == "transcript" && m.transcriptType == "final"
  }

  // ---------------------------------------------------------------------------
  // The session

  class InterviewSession {
    const props: AgentProps
    /** The workflow identifier configured for question generation. */
    const workflowId: string
    var callStatus: CallStatus
    var messages: seq<TranscriptTurn>
    var isSpeaking: bool
    var callDuration: nat
    var isProcessing: bool
    /** Whether the one-second interval started by `call-start` is live. */
    var timerRunning: bool
    /** Every command sent to the voice SDK, in order. */
    var commands: seq<BridgeCommand>

    /** A freshly rendered session: inactive, nothing recorded, no timer. */
    constructor (props: AgentProps, workflowId: string)
      ensures this.props == props && this.workflowId == workflowId
      ensures callStatus == Inactive && messages == [] && !isSpeaking
      ensures callDuration == 0 && !isProcessing && !timerRunning && commands == []
    {
      this.props := props;
      this.workflowId := workflowId;
      callStatus := Inactive;
      messages := [];
      isSpeaking := false;
      callDuration := 0;
      isProcessing := false;
      timerRunning := false;
      commands := [];
    }

    /** `handleCall`: connecting first, then the start command for the mode. */
    method HandleCall()
      modifies this
      ensures callStatus == Connecting
      ensures commands == old(commands) + [StartCommand(props, workflowId)]
      ensures messages == old(messages) && callDuration == old(callDuration)
      ensures isProcessing == old(isProcessing) && isSpeaking == old(isSpeaking)
      ensures timerRunning == old(timerRunning)
    {
      callStatus := Connecting;
      commands := commands + [StartCommand(props, workflowId)];
    }

    /** `call-start`: active, and the duration interval starts. */
    method OnCallStart()
      modifies this
      ensures callStatus == Active && timerRunning
      ensures messages == old(messages) && callDuration == old(callDuration)
      ensures isProcessing == old(isProcessing) && isSpeaking == old(isSpeaking)
      ensures commands == old(commands)
    {
      callStatus := Active;
      timerRunning := true;
    }

    /** One firing of the duration interval: exactly one more second while the
        interval is live; a cleared interval no longer fires. */
    method OnTimerTick()
      modifies this
      ensures callDuration == if old(timerRunning) then old(callDuration) + 1 else old(callDuration)
      ensures callStatus == old(callStatus) && messages == old(messages)
      ensures isProcessing == old(isProcessing) && isSpeaking == old(isSpeaking)
      ensures timerRunning == old(timerRunning) && commands == old(commands)
    {
      if timerRunning {
        callDuration := callDuration + 1;
      }
    }

    /** `call-end`, from any state: finished, interval cleared, processing. */
    method OnCallEnd()
      modifies this
      ensures callStatus == Finished && !timerRunning && isProcessing
      ensures messages == old(messages) && callDuration == old(callDuration)
      ensures isSpeaking == old(isSpeaking) && commands == old(commands)
    {
      callStatus := Finished;
      timerRunning := false;
      isProcessing := true;
    }

    /** `message`: a final transcript is appended at the end; anything else is
        dropped. Earlier entries never move. */
    method OnMessage(m: VoiceMessage)
      modifies this
      ensures IsFinalTranscript(m) ==> messages == old(messages) + [TranscriptTurn(m.role, m.transcript)]
      ensures !IsFinalTranscript(m) ==> messages == old(messages)
      ensures callStatus == old(callStatus) && callDuration == old(callDuration)
      ensures isProcessing == old(isProcessing) && isSpeaking == old(isSpeaking)
      ensures timerRunning == old(timerRunning) && commands == old(commands)
    {
      if IsFinalTranscript(m) {
        messages := messages + [TranscriptTurn(m.role, m.transcript)];
      }
    }

    method OnSpeechStart()
      modifies this`isSpeaking
      ensures isSpeaking
    {
      isSpeaking := true;
    }

    method OnSpeechEnd()
      modifies this`isSpeaking
      ensures !isSpeaking
    {
      isSpeaking := false;
    }

    /** `handleDisconnect`: finished and a stop command; the processing flag
        and the interval are left as they are. */
    method HandleDisconnect()
      modifies this
      ensures callStatus == Finished
      ensures commands == old(commands) + [Stop]
      ensures isProcessing == old(isProcessing) && timerRunning == old(timerRunning)
      ensures messages == old(messages) && callDuration == old(callDuration)
      ensures isSpeaking == old(isSpeaking)
    {
      callStatus := Finished;
      commands := commands + [Stop];
    }

    /** What the completion effect does in the current state. */
    function Completion(): Completion
      reads this
    {
      CompletionStep(callStatus, messages, isProcessing, props)
    }

    /** The call-duration label. */
    function DurationLabel(): string
      reads this
    {
      FormatTime(callDuration)
    }
  }

  /** `handleGenerateFeedback`: hands the transcript to `createFeedback` on
      the interview and feedback store, then navigates. `interviewId` and
      `userId` are asserted present (`!`) by the code; the store's new row
      id is never empty. The session reaches the feedback page exactly when
      the feedback was generated and stored, and that page then finds it. */
  method HandleGenerateFeedback(store: GeneralActions.Store, props: AgentProps, messages: seq<TranscriptTurn>,
                                generated: Option<GeneralActions.GeneratedFeedback>, dbOk: bool,
                                newId: string, now: int)
    returns (path: string)
    requires props.interviewId.Some? && props.userId.Some?
    requires store.Valid() && newId != ""
    requires forall k :: 0 <= k < |store.feedbacks| ==> store.feedbacks[k].id != newId
    modifies store
    ensures store.Valid()
    ensures path == FeedbackPage(props.interviewId) <==> generated.Some? && dbOk
    ensures path != FeedbackPage(props.interviewId) ==> path == InterviewsPath
    ensures path == FeedbackPage(props.interviewId) ==>
              GeneralActions.GetFeedbackByInterviewId(store.feedbacks, props.interviewId.value, props.userId.value).Some?
  {
    var params := CreateFeedbackParams(props.interviewId.value, props.userId.value, messages, props.feedbackId);
    var result := store.CreateFeedback(params, generated, dbOk, newId, now);
    path := AfterFeedback(result, props.interviewId);
    assert |FeedbackPage(props.interviewId)| > |InterviewsPath|;
    if result.success {
      var last := |store.feedbacks| - 1;
      assert GeneralActions.FeedbackMatches(store.feedbacks[last], params.interviewId, params.userId);
    }
  }

  /** A practice call with two final turns, an interim one and an SDK-side
      end: it runs 2 seconds and then asks for feedback on exactly the two
      final turns. */
  method PracticeSessionScenario(props: AgentProps) returns (c: Completion, shown: string)
    requires props.mode == Practice
    ensures c == RequestFeedback(props.interviewId, props.userId,
                                 [TranscriptTurn("assistant", "Tell me about yourself"),
                                  TranscriptTurn("user", "I am a backend engineer")],
                                 props.feedbackId)
    ensures shown == "00:02"
  {
    var session := new InterviewSession(props, "workflow");
    session.HandleCall();
    session.OnCallStart();
    session.OnTimerTick();
    session.OnMessage(VoiceMessage("transcript", "final", "assistant", "Tell me about yourself"));
    session.OnMessage(VoiceMessage("transcript", "partial", "user", "I am"));
    session.OnTimerTick();
    session.OnMessage(VoiceMessage("transcript", "final", "user", "I am a backend engineer"));
    session.OnCallEnd();
    session.OnTimerTick();
    c := session.Completion();
    shown := session.DurationLabel();
  }

  /** A generation call that the user hangs up: once the SDK reports the end,
      it navigates to the interview list and never asks for feedback. */
  method GenerateSessionScenario(props: AgentProps) returns (before: Completion, after: Completion)
    requires props.mode == Generate
    ensures before == Wait
    ensures after == Navigate(InterviewsPath)
  {
    var session := new InterviewSession(props, "workflow");
    session.HandleCall();
    session.OnCallStart();
    session.OnMessage(VoiceMessage("transcript", "final", "assistant", "What role?"));
    session.HandleDisconnect();
    before := session.Completion();
    session.OnCallEnd();
    after := session.Completion();
  }
}
