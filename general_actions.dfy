/** The server actions behind the interview flow: creating and updating
    interviews, generating and storing feedback, and the read queries.
    The relational database becomes an in-memory `Store` whose tables are
    sequences of rows; the language model, the clock and the database's
    identifier generator become parameters of the methods that call them. */
module GeneralActions {
  import opened Common
  import opened Text
  import opened InterviewTypes

  // ---------------------------------------------------------------------------
  // Transcript flattening

  /** The text of one turn without its line break: `- role: content`. */
  function TurnText(t: TranscriptTurn): string
  {
    "- " + t.role + ": " + t.content
  }

  /** The line `createFeedback` renders for one turn. */
  function TranscriptLine(t: TranscriptTurn): string
  {
    TurnText(t) + "\n"
  }

  /** `transcript.map(s => `- ${s.role}: ${s.content}\n`).join("")`. */
  function FormatTranscript(ts: seq<TranscriptTurn>): string
  {
    if ts == [] then "" else TranscriptLine(ts[0]) + FormatTranscript(ts[1..])
  }

  /** Flattening distributes over concatenation of transcripts: turns are
      rendered independently and in order. */
  lemma {:induction false} FormatTranscriptAppend(a: seq<TranscriptTurn>, b: seq<TranscriptTurn>)
    ensures FormatTranscript(a + b) == FormatTranscript(a) + FormatTranscript(b)
  {
    if a == [] {
      assert a + b == b;
    } else {
      assert (a + b)[0] == a[0] && (a + b)[1..] == a[1..] + b;
      FormatTranscriptAppend(a[1..], b);
    }
  }

  /** A turn whose rendering can be read back unambiguously: no line break
      anywhere, and no colon in the role (roles are `user`, `assistant`, `system`). */
  predicate Unambiguous(t: TranscriptTurn)
  {
    ':' !in t.role && '\n' !in t.role && '\n' !in t.content
  }

  /** Reads one `- role: content` line back. */
  function ParseLine(line: string): Option<TranscriptTurn>
  {
    if |line| < 2 || line[..2] != "- " then None
    else
      var body := line[2..];
      if ':' !in body then None
      else
        var j := IndexOf(body, ':');
        if j + 1 < |body| && body[j + 1] == ' ' then Some(TranscriptTurn(body[..j], body[j + 2..]))
        else None
  }

  /** Reads a flattened transcript back into its turns. */
  function ParseTranscript(s: string): Option<seq<TranscriptTurn>>
    decreases |s|
  {
    if s == "" then Some([])
    else if '\n' !in s then None
    else
      var k := IndexOf(s, '\n');
      match ParseLine(s[..k])
      case None => None
      case Some(t) =>
        match ParseTranscript(s[k + 1..])
        case None => None
        case Some(rest) => Some([t] + rest)
  }

  lemma ParseTurnText(t: TranscriptTurn)
    requires Unambiguous(t)
    ensures '\n' !in TurnText(t)
    ensures ParseLine(TurnText(t)) == Some(t)
  {
    var line := TurnText(t);
    var body := t.role + [':'] + (" " + t.content);
    assert line[..2] == "- " && line[2..] == body;
    IndexOfAfterFree(t.role, ':', " " + t.content);
    assert body[..|t.role|] == t.role;
    assert body[|t.role| + 2..] == t.content;
  }

  /** The flattened transcript holds one line per turn, in order, with nothing
      dropped or reordered: reading it back gives exactly the turns. */
  lemma {:induction false} ParseFormatTranscript(ts: seq<TranscriptTurn>)
    requires forall i :: 0 <= i < |ts| ==> Unambiguous(ts[i])
    ensures ParseTranscript(FormatTranscript(ts)) == Some(ts)
  {
    if ts != [] {
      var line, rest := TurnText(ts[0]), FormatTranscript(ts[1..]);
      var s := line + ['\n'] + rest;
      assert FormatTranscript(ts) == s;
      ParseTurnText(ts[0]);
      IndexOfAfterFree(line, '\n', rest);
      assert s[..|line|] == line;
      assert s[|line| + 1..] == rest;
      ParseFormatTranscript(ts[1..]);
      assert ts == [ts[0]] + ts[1..];
    }
  }

  // ---------------------------------------------------------------------------
  // Queries

  /** Newest first: `orderBy: { createdAt: "desc" }`. */
  predicate NewestFirst(s: seq<Interview>)
  {
    forall i, j :: 0 <= i < j < |s| ==> s[i].createdAt >= s[j].createdAt
  }

  function InsertByDate(x: Interview, s: seq<Interview>): (r: seq<Interview>)
    ensures multiset(r) == multiset(s) + multiset{x}
    ensures |r| == |s| + 1
  {
    if s == [] || x.createdAt >= s[0].createdAt then [x] + s
    else
      assert s == [s[0]] + s[1..];
      [s[0]] + InsertByDate(x, s[1..])
  }

  lemma {:induction false} InsertByDateNewestFirst(x: Interview, s: seq<Interview>)
    requires NewestFirst(s)
    ensures NewestFirst(InsertByDate(x, s))
  {
    if s != [] && x.createdAt < s[0].createdAt {
      InsertByDateNewestFirst(x, s[1..]);
      var r := InsertByDate(x, s);
      forall j | 0 < j < |r| ensures r[0].createdAt >= r[j].createdAt {
        assert r[j] in multiset(InsertByDate(x, s[1..]));
        assert r[j] in multiset(s[1..]) + multiset{x};
        if r[j] != x {
          assert r[j] in s[1..];
        }
      }
    }
  }

  /** The database's descending sort on `createdAt`. The database leaves the
      order of equal timestamps open; this model keeps their input order,
      and no property below depends on that choice. */
  function SortNewestFirst(s: seq<Interview>): (r: seq<Interview>)
    ensures multiset(r) == multiset(s)
    ensures |r| == |s|
  {
    if s == [] then []
    else
      assert s == [s[0]] + s[1..];
      InsertByDate(s[0], SortNewestFirst(s[1..]))
  }

  lemma {:induction false} SortNewestFirstSorted(s: seq<Interview>)
    ensures NewestFirst(SortNewestFirst(s))
  {
    if s != [] {
      SortNewestFirstSorted(s[1..]);
      InsertByDateNewestFirst(s[0], SortNewestFirst(s[1..]));
    }
  }

  /** `getInterviewsByUserId`: the user's interviews, newest first. */
  function GetInterviewsByUserId(interviews: seq<Interview>, userId: string): seq<Interview>
  {
    SortNewestFirst(Filter(interviews, (i: Interview) => i.userId == userId))
  }

  /** Exactly the caller's interviews, each as often as stored, newest first. */
  lemma GetInterviewsByUserIdSpec(interviews: seq<Interview>, userId: string)
    ensures NewestFirst(GetInterviewsByUserId(interviews, userId))
    ensures multiset(GetInterviewsByUserId(interviews, userId))
         == multiset(Filter(interviews, (i: Interview) => i.userId == userId))
    ensures forall x :: x in GetInterviewsByUserId(interviews, userId) <==> x in interviews && x.userId == userId
  {
    var f := Filter(interviews, (i: Interview) => i.userId == userId);
    SortNewestFirstSorted(f);
    var r := GetInterviewsByUserId(interviews, userId);
    forall x ensures x in r <==> x in interviews && x.userId == userId {
      assert x in r <==> x in multiset(r);
      assert x in f <==> x in multiset(f);
      if x in interviews && x.userId == userId {
        var k :| 0 <= k < |interviews| && interviews[k] == x;
      }
    }
  }

  predicate IsLatestCandidate(i: Interview, userId: string)
  {
    i.finalized && i.userId != userId
  }

  /** The number of rows `getLatestInterviews` returns when no limit is given. */
  const DefaultLatestLimit: nat := 20

  /** `getLatestInterviews`: finalized interviews of other users, newest first,
      at most `limit` of them. */
  function GetLatestInterviews(interviews: seq<Interview>, userId: string, limit: Option<nat>): seq<Interview>
  {
    Take(SortNewestFirst(Filter(interviews, (i: Interview) => IsLatestCandidate(i, userId))),
         limit.GetOr(DefaultLatestLimit))
  }

  /** A prefix of a newest-first list is newest first, and nothing after it
      is newer than anything in it. */
  lemma TakeNewestFirst(sorted: seq<Interview>, n: nat)
    requires NewestFirst(sorted)
    ensures var r := Take(sorted, n);
      && NewestFirst(r)
      && multiset(r) <= multiset(sorted)
      && forall k, y :: 0 <= k < |r| && y in multiset(sorted) - multiset(r) ==> y.createdAt <= r[k].createdAt
  {
    var r := Take(sorted, n);
    assert sorted == r + sorted[|r|..];
    assert multiset(sorted) == multiset(r) + multiset(sorted[|r|..]);
    forall k, y | 0 <= k < |r| && y in multiset(sorted) - multiset(r) ensures y.createdAt <= r[k].createdAt {
      assert y in sorted[|r|..];
      var j :| 0 <= j < |sorted[|r|..]| && sorted[|r|..][j] == y;
      assert sorted[|r| + j] == y;
    }
  }

  /** Only finalized interviews of other users; newest first; as many as the
      limit allows (20 by default); and none left out is newer than one returned. */
  lemma GetLatestInterviewsSpec(interviews: seq<Interview>, userId: string, limit: Option<nat>)
    ensures var r := GetLatestInterviews(interviews, userId, limit);
      && (forall k :: 0 <= k < |r| ==> r[k] in interviews && r[k].finalized && r[k].userId != userId)
      && NewestFirst(r)
      && var all := Filter(interviews, (i: Interview) => IsLatestCandidate(i, userId));
         && |r| == (if |all| <= limit.GetOr(DefaultLatestLimit) then |all| else limit.GetOr(DefaultLatestLimit))
         && multiset(r) <= multiset(all)
         && forall k, y :: 0 <= k < |r| && y in multiset(all) - multiset(r) ==> y.createdAt <= r[k].createdAt
  {
    var all := Filter(interviews, (i: Interview) => IsLatestCandidate(i, userId));
    var sorted := SortNewestFirst(all);
    SortNewestFirstSorted(all);
    TakeNewestFirst(sorted, limit.GetOr(DefaultLatestLimit));
    var r := GetLatestInterviews(interviews, userId, limit);
    forall k | 0 <= k < |r| ensures r[k] in interviews && r[k].finalized && r[k].userId != userId {
      assert r[k] in multiset(sorted);
      assert r[k] in all;
    }
  }

  /** `getInterviewById`: the interview with that identifier, if any. */
  function GetInterviewById(interviews: seq<Interview>, id: string): (r: Option<Interview>)
    ensures r.Some? ==> r.value in interviews && r.value.id == id
    ensures r.None? <==> forall k :: 0 <= k < |interviews| ==> interviews[k].id != id
  {
    if interviews == [] then None
    else if interviews[0].id == id then Some(interviews[0])
    else GetInterviewById(interviews[1..], id)
  }

  predicate FeedbackMatches(f: Feedback, interviewId: string, userId: string)
  {
    f.interviewId == interviewId && f.userId == userId
  }

  /** `getFeedbackByInterviewId`: the first stored feedback of that interview
      and that user, or null. */
  function GetFeedbackByInterviewId(feedbacks: seq<Feedback>, interviewId: string, userId: string): (r: Option<Feedback>)
    ensures r.Some? ==> r.value in feedbacks && FeedbackMatches(r.value, interviewId, userId)
    ensures r.None? <==> forall k :: 0 <= k < |feedbacks| ==> !FeedbackMatches(feedbacks[k], interviewId, userId)
  {
    if feedbacks == [] then None
    else if FeedbackMatches(feedbacks[0], interviewId, userId) then Some(feedbacks[0])
    else GetFeedbackByInterviewId(feedbacks[1..], interviewId, userId)
  }

  // ---------------------------------------------------------------------------
  // Writes

  /** The argument of `createInterview`. */
  datatype CreateInterviewParams = CreateInterviewParams(
    userId: string,
    finalized: bool,
    role: string,
    level: string,
    interviewType: string,
    questions: seq<string>,
    techstack: seq<string>)

  /** The structured object the language model returns. */
  datatype GeneratedFeedback = GeneratedFeedback(
    totalScore: int,
    categoryScores: seq<CategoryScore>,
    strengths: seq<string>,
    areasForImprovement: seq<string>,
    finalAssessment: string)

  /** `{ success, feedbackId? }`. */
  datatype CreateFeedbackResult = CreateFeedbackResult(success: bool, feedbackId: Option<string>)

  /** The row `createFeedback` writes: the generated object copied field by
      field under the given interview and user. */
  function FeedbackRow(id: string, p: CreateFeedbackParams, g: GeneratedFeedback, now: int): (f: Feedback)
    ensures f.id == id && f.interviewId == p.interviewId && f.userId == p.userId
    ensures f.totalScore == g.totalScore && f.categoryScores == g.categoryScores
    ensures f.strengths == g.strengths && f.areasForImprovement == g.areasForImprovement
    ensures f.finalAssessment == g.finalAssessment && f.createdAt == now
  {
    Feedback(id, p.interviewId, p.userId, g.totalScore, g.categoryScores, g.strengths,
             g.areasForImprovement, g.finalAssessment, now)
  }

  /** Reading feedback back right after it was stored, for an interview and a
      user that had none, yields the stored row with every generated field intact. */
  lemma FetchAfterCreate(old_: seq<Feedback>, id: string, p: CreateFeedbackParams, g: GeneratedFeedback, now: int)
    requires forall k :: 0 <= k < |old_| ==> !FeedbackMatches(old_[k], p.interviewId, p.userId)
    ensures var r := GetFeedbackByInterviewId(old_ + [FeedbackRow(id, p, g, now)], p.interviewId, p.userId);
      && r.Some?
      && r.value.totalScore == g.totalScore && r.value.strengths == g.strengths
      && r.value.areasForImprovement == g.areasForImprovement
      && r.value.finalAssessment == g.finalAssessment && r.value.categoryScores == g.categoryScores
  {
    var s := old_ + [FeedbackRow(id, p, g, now)];
    var r := GetFeedbackByInterviewId(s, p.interviewId, p.userId);
    assert s[|old_|] == FeedbackRow(id, p, g, now);
    assert r.Some?;
    var k :| 0 <= k < |s| && s[k] == r.value;
    if k < |old_| {
      assert s[k] == old_[k];
    }
  }

  /** `findFirst` without an ordering, read as the earliest stored row: once an
      interview and a user have a feedback, storing another one for them
      leaves the lookup's answer as it was. */
  lemma {:induction false} LookupKeepsEarlierFeedback(old_: seq<Feedback>, f: Feedback, interviewId: string, userId: string)
    requires exists k :: 0 <= k < |old_| && FeedbackMatches(old_[k], interviewId, userId)
    ensures GetFeedbackByInterviewId(old_ + [f], interviewId, userId) == GetFeedbackByInterviewId(old_, interviewId, userId)
  {
    assert (old_ + [f])[0] == old_[0];
    if !FeedbackMatches(old_[0], interviewId, userId) {
      var k :| 0 <= k < |old_| && FeedbackMatches(old_[k], interviewId, userId);
      assert old_[1..][k - 1] == old_[k];
      assert (old_ + [f])[1..] == old_[1..] + [f];
      LookupKeepsEarlierFeedback(old_[1..], f, interviewId, userId);
    }
  }

  /** Distinct row identifiers. */
  ghost predicate UniqueInterviewIds(s: seq<Interview>)
  {
    forall i, j :: 0 <= i < j < |s| ==> s[i].id != s[j].id
  }

  ghost predicate UniqueFeedbackIds(s: seq<Feedback>)
  {
    forall i, j :: 0 <= i < j < |s| ==> s[i].id != s[j].id
  }

  /** The index of the interview with that identifier, if any. */
  function FindInterview(s: seq<Interview>, id: string): (k: Option<nat>)
    ensures k.Some? ==> k.value < |s| && s[k.value].id == id
    ensures k.None? ==> forall j :: 0 <= j < |s| ==> s[j].id != id
  {
    if s == [] then None
    else if s[0].id == id then Some(0)
    else match FindInterview(s[1..], id)
      case None => None
      case Some(j) => Some(j + 1)
  }

  /** The two tables the interview flow uses, and the prompts sent to the model. */
  class Store {
    var interviews: seq<Interview>
    var feedbacks: seq<Feedback>
    /** Every flattened transcript handed to the language model, in call order. */
    var modelTranscripts: seq<string>

    ghost predicate Valid()
      reads this
    {
      UniqueInterviewIds(interviews) && UniqueFeedbackIds(feedbacks)
    }

    constructor ()
      ensures Valid()
      ensures interviews == [] && feedbacks == [] && modelTranscripts == []
    {
      interviews, feedbacks, modelTranscripts := [], [], [];
    }

    /** `createInterview`: stores a new row stamped `now`; a database error
        (`dbOk` false) gives null and no row. `newId` is the identifier the
        database assigns. */
    method CreateInterview(p: CreateInterviewParams, newId: string, now: int, dbOk: bool)
      returns (r: Option<Interview>)
      requires Valid()
      requires forall k :: 0 <= k < |interviews| ==> interviews[k].id != newId
      modifies this
      ensures Valid()
      ensures dbOk ==> (r == Some(Interview(newId, p.userId, p.role, p.level, p.interviewType,
                                            p.questions, p.techstack, p.finalized, now, now))
                        && interviews == old(interviews) + [r.value])
      ensures !dbOk ==> r == None && interviews == old(interviews)
      ensures feedbacks == old(feedbacks) && modelTranscripts == old(modelTranscripts)
    {
      if !dbOk {
        return None;
      }
      var row := Interview(newId, p.userId, p.role, p.level, p.interviewType,
                           p.questions, p.techstack, p.finalized, now, now);
      interviews := interviews + [row];
      r := Some(row);
    }

    /** `updateInterview`: sets `finalized` when one is given (an undefined
        field is left alone) and always stamps `updatedAt`; the transcript
        argument is ignored. An unknown identifier makes the update throw,
        which is reported as null. */
    method UpdateInterview(interviewId: string, finalized: Option<bool>,
                           transcript: Option<seq<TranscriptTurn>>, now: int)
      returns (r: Option<Interview>)
      requires Valid()
      modifies this
      ensures Valid()
      ensures |interviews| == |old(interviews)|
      ensures feedbacks == old(feedbacks) && modelTranscripts == old(modelTranscripts)
      ensures r.None? <==> forall k :: 0 <= k < |old(interviews)| ==> old(interviews)[k].id != interviewId
      ensures r.None? ==> interviews == old(interviews)
      ensures r.Some? ==> exists k :: (0 <= k < |interviews| && old(interviews)[k].id == interviewId
        && r.value == old(interviews)[k].(finalized := finalized.GetOr(old(interviews)[k].finalized), updatedAt := now)
        && interviews == old(interviews)[k := r.value])
    {
      var k := FindInterview(interviews, interviewId);
      if k.None? {
        return None;
      }
      var i := k.value;
      var row := interviews[i].(finalized := finalized.GetOr(interviews[i].finalized), updatedAt := now);
      interviews := interviews[i := row];
      r := Some(row);
    }

    /** `createFeedback`: flattens the transcript and hands it to the language
        model (`generated` is its answer, None when the call throws), then
        stores the answer as a new row (`dbOk` false when the insert throws).
        Any failure gives `{ success: false }` and stores nothing; the
        `feedbackId` parameter is never read, so every success adds a row. */
    method CreateFeedback(p: CreateFeedbackParams, generated: Option<GeneratedFeedback>,
                          dbOk: bool, newId: string, now: int)
      returns (r: CreateFeedbackResult)
      requires Valid()
      requires forall k :: 0 <= k < |feedbacks| ==> feedbacks[k].id != newId
      modifies this
      ensures Valid()
      ensures interviews == old(interviews)
      ensures modelTranscripts == old(modelTranscripts) + [FormatTranscript(p.transcript)]
      ensures r.success <==> generated.Some? && dbOk
      ensures r.success ==> (r.feedbackId == Some(newId)
        && feedbacks == old(feedbacks) + [FeedbackRow(newId, p, generated.value, now)])
      ensures !r.success ==> r.feedbackId == None && feedbacks == old(feedbacks)
    {
      var formatted := FormatTranscript(p.transcript);
      modelTranscripts := modelTranscripts + [formatted];
      if generated.None? || !dbOk {
        return CreateFeedbackResult(false, None);
      }
      var row := FeedbackRow(newId, p, generated.value, now);
      feedbacks := feedbacks + [row];
      r := CreateFeedbackResult(true, Some(newId));
    }
  }
}
