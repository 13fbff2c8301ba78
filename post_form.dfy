/** The blog post editor form: its schema, the word count and reading-time
    estimate, and the submit handler that hands the post to `savePost`. */
module PostForm {
  import opened Common
  import opened Text

  /** The `coverImage` field: a chosen file, a URL string, `null`, or the
      empty object of a blank form. */
  datatype CoverImage = FileUpload(fileName: string) | Url(url: string) | NoImage | EmptyObject

  datatype FormValues = FormValues(
    id: Option<string>,
    title: string,
    slug: string,
    excerpt: string,
    content: string,
    coverImage: CoverImage,
    categories: seq<string>,
    published: bool,
    readingTime: Option<string>,
    authorId: Option<string>)

  /** What `onSubmit` passes to `savePost`: the form values and `publishedAt`. */
  datatype Submission = Submission(values: FormValues, publishedAt: string)

  const MaxExcerpt: nat := 200
  const WordsPerMinute: nat := 200

  // ---------------------------------------------------------------------------
  // Schema

  /** The slug alphabet `[a-z0-9-]`. */
  predicate SlugChar(c: char)
  {
    ('a' <= c <= 'z') || ('0' <= c <= '9') || c == '-'
  }

  /** At least one character, all from the slug alphabet. */
  predicate ValidSlug(slug: string)
  {
    |slug| >= 1 && forall i :: 0 <= i < |slug| ==> SlugChar(slug[i])
  }

  /** Between 1 and 200 characters. */
  predicate ValidExcerpt(excerpt: string)
  {
    1 <= |excerpt| <= MaxExcerpt
  }

  /** The form schema: a title, a valid slug and excerpt, content, and at
      least one category; the other fields take any value of their type. */
  predicate ValidForm(v: FormValues)
  {
    && |v.title| >= 1
    && ValidSlug(v.slug)
    && ValidExcerpt(v.excerpt)
    && |v.content| >= 1
    && |v.categories| >= 1
  }

  /** Upper-case letters, spaces and underscores are outside the slug
      alphabet; a lower-case, digit and hyphen slug is inside it. */
  lemma SlugExamples()
    ensures ValidSlug("ats-friendly-resume-tips-2025")
    ensures !ValidSlug("") && !ValidSlug("Resume") && !ValidSlug("resume tips") && !ValidSlug("resume_tips")
  {
    assert !SlugChar("Resume"[0]);
    assert !SlugChar("resume tips"[6]);
    assert !SlugChar("resume_tips"[6]);
  }

  // ---------------------------------------------------------------------------
  // Word count: `content.split(/\s+/).length`

  /** The pieces of `s` between maximal whitespace runs, `cur` being the piece
      read so far: JavaScript's `split(/\s+/)`. */
  function SplitWhitespaceFrom(s: string, cur: string): (r: seq<string>)
    ensures |r| >= 1
    decreases |s|
  {
    if s == [] then [cur]
    else if IsWhitespace(s[0]) then
      var rest := TrimStart(s);
      assert rest != s;
      [cur] + SplitWhitespaceFrom(rest, "")
    else SplitWhitespaceFrom(s[1..], cur + [s[0]])
  }

  function SplitWhitespace(s: string): seq<string>
  {
    SplitWhitespaceFrom(s, "")
  }

  function WordCount(content: string): nat
  {
    |SplitWhitespace(content)|
  }

  /** The number of maximal whitespace runs, counted left to right as the
      whitespace characters that follow a non-whitespace one (or the start,
      when `afterWhitespace` is false). */
  function RunsAfter(s: string, afterWhitespace: bool): nat
  {
    if s == [] then 0
    else (if IsWhitespace(s[0]) && !afterWhitespace then 1 else 0) + RunsAfter(s[1..], IsWhitespace(s[0]))
  }

  function WhitespaceRuns(s: string): nat
  {
    RunsAfter(s, false)
  }

  /** Inside a run, skipping to its end starts no new run. */
  lemma {:induction false} SkipRun(s: string)
    ensures RunsAfter(s, true) == RunsAfter(TrimStart(s), false)
  {
    if s != [] {
      if IsWhitespace(s[0]) {
        SkipRun(s[1..]);
      }
    }
  }

  lemma {:induction false} SplitCount(s: string, cur: string)
    ensures |SplitWhitespaceFrom(s, cur)| == 1 + WhitespaceRuns(s)
    decreases |s|
  {
    if s == [] {
    } else if IsWhitespace(s[0]) {
      SkipRun(s[1..]);
      assert TrimStart(s) == TrimStart(s[1..]);
      SplitCount(TrimStart(s), "");
    } else {
      SplitCount(s[1..], cur + [s[0]]);
    }
  }

  /** The word count is one more than the number of whitespace runs, so it is
      never 0 (an empty post counts one word). */
  lemma WordCountIsRunsPlusOne(content: string)
    ensures WordCount(content) == 1 + WhitespaceRuns(content)
    ensures WordCount(content) >= 1
  {
    SplitCount(content, "");
  }

  // ---------------------------------------------------------------------------
  // Reading time

  /** `Math.max(1, Math.ceil(wordCount / 200))`: the fewest whole minutes
      that cover the words at 200 per minute, and at least one. */
  function ReadingMinutes(wordCount: nat): (m: nat)
    ensures m >= 1
    ensures wordCount <= m * WordsPerMinute
    ensures m == 1 || (m - 1) * WordsPerMinute < wordCount
  {
    var c := (wordCount + WordsPerMinute - 1) / WordsPerMinute;
    if c < 1 then 1 else c
  }

  lemma ReadingMinutesExamples()
    ensures ReadingMinutes(0) == 1 && ReadingMinutes(1) == 1
    ensures ReadingMinutes(200) == 1 && ReadingMinutes(201) == 2 && ReadingMinutes(1000) == 5
  {
  }

  /** More words never mean fewer minutes. */
  lemma ReadingMinutesMonotone(a: nat, b: nat)
    requires a <= b
    ensures ReadingMinutes(a) <= ReadingMinutes(b)
  {
  }

  function ReadingTimeText(minutes: nat): string
  {
    NatToString(minutes) + " min read"
  }

  /** The values and `publishedAt` that `onSubmit` hands on: a given reading
      time is kept, a missing or empty one is estimated from the content; the
      initial `publishedAt` is kept when there is one, otherwise it is now. */
  function Prepare(data: FormValues, initialPublishedAt: Option<string>, now: string): (s: Submission)
    ensures s.values.(readingTime := data.readingTime) == data
    ensures Truthy(data.readingTime) ==> s.values.readingTime == data.readingTime
    ensures !Truthy(data.readingTime) ==>
              s.values.readingTime == Some(ReadingTimeText(ReadingMinutes(WordCount(data.content))))
    ensures Truthy(initialPublishedAt) ==> s.publishedAt == initialPublishedAt.value
    ensures !Truthy(initialPublishedAt) ==> s.publishedAt == now
  {
    var values :=
      if Truthy(data.readingTime) then data
      else data.(readingTime := Some(ReadingTimeText(ReadingMinutes(WordCount(data.content)))));
    Submission(values, if Truthy(initialPublishedAt) then initialPublishedAt.value else now)
  }

  /** The estimated reading time reads "<m> min read" with m at least 1 and
      m the minutes for one more word than there are whitespace runs. */
  lemma EstimatedReadingTime(data: FormValues, initialPublishedAt: Option<string>, now: string)
    requires !Truthy(data.readingTime)
    ensures var rt := Prepare(data, initialPublishedAt, now).values.readingTime;
      && rt.Some?
      && rt.value == NatToString(ReadingMinutes(1 + WhitespaceRuns(data.content))) + " min read"
      && ReadingMinutes(1 + WhitespaceRuns(data.content)) >= 1
  {
    WordCountIsRunsPlusOne(data.content);
  }

  // ---------------------------------------------------------------------------
  // The form

  const CreatedMessage := "Post created successfully!"
  const UpdatedMessage := "Post updated successfully!"
  const FailedMessage := "Failed to save post. Please try again."
  const PostsPath := "/admin/blog"

  class BlogPostForm {
    const isEditMode: bool
    /** `initialData?.publishedAt`. */
    const initialPublishedAt: Option<string>
    var isSubmitting: bool
    /** Every submission handed to `savePost`, in order. */
    var saved: seq<Submission>
    /** Every route the form navigated to, in order. */
    var navigations: seq<string>

    constructor (isEditMode: bool, initialPublishedAt: Option<string>)
      ensures this.isEditMode == isEditMode && this.initialPublishedAt == initialPublishedAt
      ensures !isSubmitting && saved == [] && navigations == []
    {
      this.isEditMode := isEditMode;
      this.initialPublishedAt := initialPublishedAt;
      isSubmitting := false;
      saved := [];
      navigations := [];
    }

    /** `onSubmit`, which the form calls only with values that pass the
        schema. `saveOk` is whether `savePost` returned normally; the
        toast text is the result. The form is no longer submitting
        afterwards, whatever happened. */
    method OnSubmit(data: FormValues, now: string, saveOk: bool) returns (toast: string)
      requires ValidForm(data)
      modifies this
      ensures !isSubmitting
      ensures saved == old(saved) + [Prepare(data, initialPublishedAt, now)]
      ensures saveOk ==> toast == (if isEditMode then UpdatedMessage else CreatedMessage)
      ensures saveOk ==> navigations == old(navigations) + [PostsPath]
      ensures !saveOk ==> toast == FailedMessage && navigations == old(navigations)
    {
      isSubmitting := true;
      var values := data;
      if !Truthy(values.readingTime) {
        var wordCount := WordCount(values.content);
        var minutes := ReadingMinutes(wordCount);
        values := values.(readingTime := Some(ReadingTimeText(minutes)));
      }
      var publishedAt := if Truthy(initialPublishedAt) then initialPublishedAt.value else now;
      saved := saved + [Submission(values, publishedAt)];
      if saveOk {
        toast := if isEditMode then UpdatedMessage else CreatedMessage;
        navigations := navigations + [PostsPath];
      } else {
        toast := FailedMessage;
      }
      isSubmitting := false;
    }
  }
}
