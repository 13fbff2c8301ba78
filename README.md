# Recruityze core in Dafny

Recruityze is a Next.js career platform. It offers AI mock interviews with a
voice assistant, LLM-written feedback on the interview transcript, subscription
quotas, a blog with an admin editor, and marketing pages. This project models
the logic behind those screens and server actions. It proves what that logic
promises:

- **Interview agent** (`agent.dfy`): the call-state machine of the voice
  interview.
  - Starting a call sends one command, which depends on the mode: the
    generate workflow, or the interviewer with the bullet-formatted
    questions.
  - Call events update the status, the timer and the transcript.
  - The completion step either navigates to `/interviews` or requests
    feedback, and the navigation after feedback follows.
  - `mm:ss` timer labels parse back to the seconds they show.
- **Interview actions** (`general_actions.dfy`): the interview and feedback
  tables as a store.
  - Creating and updating interviews.
  - Listing a user's interviews newest first.
  - The latest finalized interviews of other users, at most `limit`
    (default 20).
  - Lookups by id.
  - Feedback creation: the transcript is formatted as `- role: content\n`
    lines, which parse back. A stored row carries the generated scores, and
    a later lookup finds it.
- **Permissions** (`permissions.dfy`): resume and interview quotas per
  tier (free 1, pro 3, pro_plus unlimited) and the two feature gates.
- **Blog page, related posts and FAQ** (`blog_page.dfy`,
  `related_posts.dfy`, `faq.dfy`):
  - Category and search filtering keep exactly the matching posts or FAQ
    items, in their order.
  - The featured strip holds the first three posts when nothing narrows the
    list.
  - The bookmark toggle and the card badges.
  - Related posts: up to three, after the current post is excluded.
- **Admin post form and admin actions** (`post_form.dfy`,
  `admin_actions.dfy`):
  - The form schema and the reading-time estimate of 200 words per minute.
  - The value the submit handler passes on, and the toast it shows.
  - `savePost`'s rules:
    - The schema.
    - Ownership of an existing post.
    - The author.
    - The cover image: a file is uploaded after the old one is deleted, a
      string is kept.
    - Update versus create.
  - The admin schema, login with uniform failure messages, the session
    cookie, the current admin and logout.
- **Display components** (`feedback_display.dfy`, `interview_card.dfy`,
  `landing_navbar.dfy`, `admin_sidebar.dfy`):
  - Score levels, tones and the "N/A"/"Pending" rules.
  - The card's feedback fetch, link and preview.
  - The navbar's two exclusive dropdown menus and the scroll flag.
  - The sidebar's prefix-based highlighting.

The shared modules:

- `common.dfy`: `Option`, `Result`, JavaScript truthiness of optional
  strings, and `Filter`, `Take` and subsequence lemmas.
- `text.dfy`: the JavaScript string operations the code relies on, over
  `seq<char>`:
  - `trim`, with the ECMAScript whitespace set.
  - ASCII `toLowerCase`.
  - `includes`, `startsWith`, `join` and `split` on one character.
  - `Number.toString` and `padStart`.
- `types.dfy`: the records of `types/index.d.ts`.

Mutable React state and the server-side tables are modelled as classes, one
per component, whose methods are the event handlers:

- `Agent.InterviewSession`
- `BlogPage.BlogPageState`
- `PostForm.BlogPostForm`
- `LandingNavbar.Navbar`
- `GeneralActions.Store`
- `AdminActions.AdminStore`

Each method's contract ties its new state to pure functions, and the
properties are proved about those functions. Outside services become
parameters: the voice SDK, the LLM, Prisma's acceptance of a write, the blob
store and the clock. Commands the component sends out are recorded in
sequence fields.

## Model

| member | source | states |
|---|---|---|
| Agent.InterviewSession.constructor | src/components/interview/Agent.tsx:53-59 | A session starts inactive with no messages, zero duration, not speaking, not processing, no timer and no command sent |
| Agent.InterviewSession.HandleCall | src/components/interview/Agent.tsx:216-234 | Starting a call sets Connecting and sends exactly the mode's start command; nothing else changes |
| Agent.InterviewSession.OnCallStart | src/components/interview/Agent.tsx:123-129 | The call becomes Active and the one-second timer runs; transcript and duration are kept |
| Agent.InterviewSession.OnTimerTick | src/components/interview/Agent.tsx:126-128 | A tick adds one second only while the timer runs |
| Agent.InterviewSession.OnCallEnd | src/components/interview/Agent.tsx:131-137 | The call becomes Finished, the timer stops and processing starts |
| Agent.InterviewSession.OnMessage | src/components/interview/Agent.tsx:139-144 | Exactly the final transcript messages are appended as (role, transcript); others leave the state unchanged |
| Agent.InterviewSession.OnSpeechStart | src/components/interview/Agent.tsx:146-148 | The assistant is speaking afterwards |
| Agent.InterviewSession.OnSpeechEnd | src/components/interview/Agent.tsx:150-152 | The assistant is not speaking afterwards |
| Agent.InterviewSession.HandleDisconnect | src/components/interview/Agent.tsx:236-239 | Hanging up sets Finished and sends Stop, leaving processing, timer and transcript as they were |
| Agent.FormatQuestionsAbsent | src/components/interview/Agent.tsx:226-227 | Missing or empty questions produce the empty string |
| Agent.FormatQuestionsRoundTrip | src/components/interview/Agent.tsx:226-227 | Splitting the formatted questions on newlines and stripping the bullets gives back the questions, for questions without newlines |
| Agent.StartCommandSendsQuestions | src/components/interview/Agent.tsx:216-233 | In practice mode the call starts the interviewer, and its questions variable, split on newlines with the "- " bullets stripped, reads back as the interview's questions (none when it has none), for questions without newlines |
| Agent.HandleGenerateFeedback | src/components/interview/Agent.tsx:179-192 | The feedback is stored through createFeedback; the router goes to the interview's feedback page exactly when it was generated and the database accepted it, and then the store's lookup for that interview and user finds a feedback; any other outcome goes to /interviews |
| Agent.CompletionStep | src/components/interview/Agent.tsx:194-204 | Nothing happens unless the call is finished with messages and processing; generate mode never requests feedback and only navigates to /interviews; feedback is requested exactly in practice mode under those conditions, with the session's transcript and ids |
| Agent.FormatTimeSpec | src/components/interview/Agent.tsx:241-245 | The label is minutes, a colon and two seconds digits; the minutes are at least two digits; the parts are worth seconds/60 and seconds%60 |
| Agent.ParseFormatTime | src/components/interview/Agent.tsx:241-245 | Parsing a timer label gives back the seconds it was made from |
| Agent.ShortNumber | src/components/interview/Agent.tsx:243-244 | A number below 100 prints in at most two digits, so padding to two is exact for the seconds |
| Agent.ColonSplit | src/components/interview/Agent.tsx:244 | In digits ':' rest, the first colon is right after the digits |
| Agent.JoinFirstNonEmpty | src/components/interview/Agent.tsx:226-227 | A join whose first part is non-empty is non-empty |
| Agent.PracticeSessionScenario | src/components/interview/Agent.tsx:123-214 | A practice call with two final messages and two ticks ends in a feedback request carrying those two turns, and the timer shows "00:02" |
| Agent.GenerateSessionScenario | src/components/interview/Agent.tsx:194-204 | A generate call waits while active and navigates to /interviews once ended with a message |
| GeneralActions.FormatTranscriptAppend | src/lib/actions/general.action.ts:111-116 | Formatting a concatenation is the concatenation of the formats |
| GeneralActions.ParseTurnText | src/lib/actions/general.action.ts:114 | One "- role: content" line parses back to its turn when the role has no ": " and neither part has a newline |
| GeneralActions.ParseFormatTranscript | src/lib/actions/general.action.ts:111-116 | The formatted transcript parses back to the turns |
| GeneralActions.InsertByDate | src/lib/actions/general.action.ts:68-70 | Inserting adds exactly one element to the multiset |
| GeneralActions.InsertByDateNewestFirst | src/lib/actions/general.action.ts:68-70 | Inserting into a newest-first list keeps it newest first |
| GeneralActions.SortNewestFirst | src/lib/actions/general.action.ts:68-70 | Sorting is a permutation |
| GeneralActions.SortNewestFirstSorted | src/lib/actions/general.action.ts:68-70 | The sort's result is newest first |
| GeneralActions.GetInterviewsByUserIdSpec | src/lib/actions/general.action.ts:61-74 | The list holds exactly the user's interviews, newest first, as a permutation of them |
| GeneralActions.TakeNewestFirst | src/lib/actions/general.action.ts:88-91 | A prefix of a newest-first list is newest first, and everything left out is no newer than anything kept |
| GeneralActions.GetLatestInterviewsSpec | src/lib/actions/general.action.ts:76-95 | Only finalized interviews of other users appear, newest first; there are min(limit, candidates) of them with limit 20 by default, and none left out is newer than one shown |
| GeneralActions.GetInterviewById | src/lib/actions/general.action.ts:97-105 | The result is an interview with that id, and it is missing exactly when no interview has it |
| GeneralActions.GetFeedbackByInterviewId | src/lib/actions/general.action.ts:162-175 | The result is a feedback for that interview and user, and it is missing exactly when none matches |
| GeneralActions.FetchAfterCreate | src/lib/actions/general.action.ts:141-175 | After storing the first feedback for an interview and user, the lookup returns the generated scores and texts |
| GeneralActions.LookupKeepsEarlierFeedback | src/lib/actions/general.action.ts:141-175 | When a feedback for an interview and user is already stored, creating another leaves the lookup on the earlier one |
| GeneralActions.FindInterview | src/lib/actions/general.action.ts:42-45 | The index found holds that id; when none is found, no interview has it |
| GeneralActions.Store.constructor | src/lib/actions/general.action.ts:8 | The tables start empty |
| GeneralActions.Store.CreateInterview | src/lib/actions/general.action.ts:12-32 | A successful write appends the interview built from the parameters and returns it; a failed one returns null and changes nothing |
| GeneralActions.Store.UpdateInterview | src/lib/actions/general.action.ts:34-59 | An unknown id changes nothing and returns null; otherwise only that interview changes, in finalized (when given) and updatedAt, and the transcript is ignored |
| GeneralActions.Store.CreateFeedback | src/lib/actions/general.action.ts:107-160 | The model sees the formatted transcript; success holds exactly when generation and the write both succeed, and then the new row is appended and its id returned; otherwise nothing is stored and no id is returned |
| Permissions.ResumeQuotas | src/lib/permissions.ts:3-16 | Free allows a resume below a count of 1, pro below 3 |
| Permissions.ProPlusUnlimited | src/lib/permissions.ts:3-29 | pro_plus may always create resumes and interviews |
| Permissions.SameQuotas | src/lib/permissions.ts:3-29 | Interview and resume permissions agree for every tier and count |
| Permissions.QuotaMonotone | src/lib/permissions.ts:3-29 | If creation is allowed at a count, it is allowed at any lower count and on any higher tier |
| Permissions.AIToolsGate | src/lib/permissions.ts:31-33 | AI tools are refused exactly to the free tier |
| Permissions.CustomizationsGate | src/lib/permissions.ts:35-37 | Customizations are allowed exactly for pro_plus, and imply AI tools |
| BlogPage.NarrowingIsVisible | src/components/blog/BlogPage.tsx:63-81 | Narrowing by category, then by search, each only when it applies, yields exactly the visible posts |
| BlogPage.VisibleSpec | src/components/blog/BlogPage.tsx:63-83 | The visible posts are an order-preserving sublist holding exactly the posts that pass both the category and the search test |
| BlogPage.VisibleInCategory | src/components/blog/BlogPage.tsx:66-70 | With a category other than "All", every visible post has that category |
| BlogPage.VisibleUnfiltered | src/components/blog/BlogPage.tsx:63-83 | With "All" and a blank search, every post is visible |
| BlogPage.FeaturedSpec | src/components/blog/BlogPage.tsx:85-89 | Featured is a prefix of at most three posts, non-empty only with "All" and a blank search, and exactly three then when there are enough posts |
| BlogPage.Toggled | src/components/blog/BlogPage.tsx:96-102 | A toggled id is saved afterwards exactly when it was not before; an unsaved id is appended; other ids are kept and none is added |
| BlogPage.ToggleTwice | src/components/blog/BlogPage.tsx:96-102 | Toggling an unsaved id twice restores the saved list |
| BlogPage.CardBadges | src/components/blog/BlogPage.tsx:271-283 | A card shows its first two categories and, when there are more, one "+n" badge for the other n |
| BlogPage.BlogPageState.constructor | src/components/blog/BlogPage.tsx:47-52 | The page starts on "All" with no search, listing every post, featuring the first three, with no bookmarks, which agrees with the filter effect |
| BlogPage.BlogPageState.ApplyFilters | src/components/blog/BlogPage.tsx:63-90 | After the effect, the listed and featured posts are those that the current category and search determine |
| BlogPage.BlogPageState.SetSearchTerm | src/components/blog/BlogPage.tsx:49 | A new search term, with the category and bookmarks kept, and the lists recomputed |
| BlogPage.BlogPageState.SetActiveCategory | src/components/blog/BlogPage.tsx:48 | A new category, with the search and bookmarks kept, and the lists recomputed |
| BlogPage.BlogPageState.ResetFilters | src/components/blog/BlogPage.tsx:219-222 | Resetting lists every post and features the first three again |
| BlogPage.BlogPageState.ToggleSavePost | src/components/blog/BlogPage.tsx:96-102 | The bookmarks become the toggled list |
| RelatedPosts.RelatedSpec | src/components/blog/RelatedPosts.tsx:12-18 | At most three posts from the list, never the current one, each sharing a category, in list order; the result is exactly the first three eligible posts (all of them when fewer) |
| RelatedPosts.NoCategoriesNoRelated | src/components/blog/RelatedPosts.tsx:12-20 | A post without categories has no related posts, so the section does not render |
| Faq.FilteredItemsSpec | src/components/landing/FAQ.tsx:77-84 | The shown items are an order-preserving sublist holding exactly the items that match the search and the tab |
| Faq.MatchesSearchIff | src/components/landing/FAQ.tsx:78-80 | An item matches exactly when the lower-cased query occurs in the lower-cased question or answer |
| Faq.EmptyQueryMatchesAll | src/components/landing/FAQ.tsx:78-80 | The empty query matches every item |
| Faq.EmptyQueryAllTabListsEverything | src/components/landing/FAQ.tsx:77-84 | The empty query on the "all" tab lists every item |
| Faq.OtherTabByEquality | src/components/landing/FAQ.tsx:81-82 | A tab other than "all" keeps exactly the items of that category |
| PostForm.SlugExamples | src/components/admin/blog/PostForm.tsx:30-36 | A lower-case, digit and hyphen slug is valid; empty, upper-case, space and underscore slugs are not |
| PostForm.SplitWhitespaceFrom | src/components/admin/blog/PostForm.tsx:91 | Splitting on whitespace runs yields at least one piece |
| PostForm.WordCountIsRunsPlusOne | src/components/admin/blog/PostForm.tsx:91 | The word count is one more than the number of whitespace runs, so it is at least 1 |
| PostForm.ReadingMinutes | src/components/admin/blog/PostForm.tsx:92 | The least whole number of minutes, at least one, that covers the words at 200 per minute |
| PostForm.ReadingMinutesExamples | src/components/admin/blog/PostForm.tsx:92 | 0, 1 and 200 words take 1 minute; 201 take 2; 1000 take 5 |
| PostForm.ReadingMinutesMonotone | src/components/admin/blog/PostForm.tsx:92 | More words never take fewer minutes |
| PostForm.Prepare | src/components/admin/blog/PostForm.tsx:88-100 | Only the reading time may change: a given one is kept and a missing one is estimated from the content; publishedAt is the initial one when there is one, otherwise now |
| PostForm.EstimatedReadingTime | src/components/admin/blog/PostForm.tsx:89-94 | An estimated reading time reads "m min read", where m ≥ 1 is the minutes for one more word than there are whitespace runs |
| PostForm.BlogPostForm.constructor | src/components/admin/blog/PostForm.tsx:56 | The form starts not submitting, with nothing saved and no navigation |
| PostForm.BlogPostForm.OnSubmit | src/components/admin/blog/PostForm.tsx:84-117 | The prepared submission is saved. On success the toast matches the mode and the form navigates to /admin/blog; on failure the error toast shows and the form stays; it is never left submitting |
| FeedbackDisplay.Level | src/components/interview/FeedbackDisplay.tsx:29-36 | Excellent from 80, good from 60, average from 40, needs improvement below |
| FeedbackDisplay.ScorePercentage | src/components/interview/FeedbackDisplay.tsx:39 | The ring shows the total score, or 0 without feedback |
| FeedbackDisplay.DisplayedScore | src/components/interview/FeedbackDisplay.tsx:132 | "N/A" is shown exactly when there is no score or it is 0; any other score is shown as its decimal number |
| FeedbackDisplay.MissingFeedback | src/components/interview/FeedbackDisplay.tsx:29-47 | Without feedback the level is needs improvement, the ring is empty, the score reads "N/A" and there is no confetti |
| FeedbackDisplay.LevelMonotone | src/components/interview/FeedbackDisplay.tsx:29-36 | A higher score never gets a lower level |
| FeedbackDisplay.ConfettiIsGoodOrBetter | src/components/interview/FeedbackDisplay.tsx:29-47 | Confetti (75 and above) only comes with a good or excellent level |
| FeedbackDisplay.CategoryTone | src/components/interview/FeedbackDisplay.tsx:227-235 | Category badges are green from 80, blue from 60, yellow from 40, red below |
| FeedbackDisplay.CategoryToneFollowsLevel | src/components/interview/FeedbackDisplay.tsx:227-235 | A category's tone is the colour of its score's level |
| InterviewCard.NormalizedType | src/components/interview/InterviewCard.tsx:28 | A type containing "mix" in any letter case is shown as "Mixed"; any other is shown as given |
| InterviewCard.ScoreBadge | src/components/interview/InterviewCard.tsx:29-83 | The badge reads "Pending" exactly when there is no feedback or its total is 0; otherwise it reads the total followed by "/100" |
| InterviewCard.ScoreTone | src/components/interview/InterviewCard.tsx:33-47 | Gray without a score, green from 80, amber from 60, red below |
| InterviewCard.ScoreColors | src/components/interview/InterviewCard.tsx:33-47 | The text and background classes are those of the score's tone |
| InterviewCard.ZeroScoreIsPending | src/components/interview/InterviewCard.tsx:29-47 | A stored total of 0 is shown as "Pending" in gray |
| InterviewCard.PreviewText | src/components/interview/InterviewCard.tsx:104-105 | The preview is the final assessment when it is non-empty, otherwise the not-completed text, so it is never blank |
| InterviewCard.CardLinksFeedbackIffStored | src/components/interview/InterviewCard.tsx:16-124 | For non-empty ids, the card links to the interview's feedback page as "Check Feedback" exactly when a feedback for that interview and user is stored, and otherwise to the interview itself |
| AdminActions.FindAdmin | src/app/admin/action.ts:240-242 | The admin found holds the value in the looked-up column (id or email); when none is found, no admin holds it |
| AdminActions.CurrentAdmin | src/app/admin/action.ts:281-299 | No cookie means no admin; a cookie naming a stored admin gives that admin without the password |
| AdminActions.Login | src/app/admin/action.ts:230-278 | A missing email or password is its own error; every other failure is "invalid email or password"; success comes from an admin with that email and password, returned without the password |
| AdminActions.FindUnique | src/app/admin/action.ts:288-296 | In a column whose values are unique, the lookup finds the one admin holding the value |
| AdminActions.LoginSucceedsIff | src/app/admin/action.ts:240-259 | With unique emails, login succeeds exactly when an admin has that email and password |
| AdminActions.LoginFailuresAlike | src/app/admin/action.ts:244-259 | A wrong password and an unknown email fail with the same error |
| AdminActions.AdminIssues | src/app/admin/action.ts:130-136 | No issues exactly when the name is non-empty, the email is valid and the password has at least 8 characters; each message appears exactly when its rule fails |
| AdminActions.SaveOutcome | src/app/admin/action.ts:27-108 | Invalid values and saves not made by the existing post's author are refused; the existing post is looked up only for a non-empty id. A saved post keeps the existing author, or else gets the current admin; a file cover becomes the upload's URL and a string is kept. A non-empty id updates that post (its createdAt kept); a missing id creates a post under the database's fresh id and an empty id creates one under "", stamped now. The content is stored as submitted, and only when the database accepts |
| AdminActions.BlobEffects | src/app/admin/action.ts:60-80 | The blob store is touched only for a file cover after the checks pass. An old cover is deleted first, and only when the delete succeeds; the upload comes last, whatever became of the delete |
| AdminActions.NotAuthorizedTouchesNothing | src/app/admin/action.ts:53-55 | An edit by someone other than the author is refused before any blob or row is written |
| AdminActions.AdminStore.constructor | src/app/admin/action.ts:3-6 | No posts, no session, no blobs; the given admins, with unique ids and emails |
| AdminActions.AdminStore.SavePost | src/app/admin/action.ts:27-108 | The result is the save outcome for the current admin; a saved post is stored under its id (the submitted one, or the fresh id when none was submitted), nothing else changes, and the blob operations are appended |
| AdminActions.AdminStore.GetAdmin | src/app/admin/action.ts:230-278 | The result is the login outcome, and the session cookie holds the admin's id exactly after a success |
| AdminActions.AdminStore.LogoutAdmin | src/app/admin/action.ts:302-305 | The cookie is removed, success is reported, and no admin is current afterwards |
| AdminActions.LoginThenCurrent | src/app/admin/action.ts:264-299 | After a login, the cookie it sets yields the same admin as the current one |
| LandingNavbar.Navbar.constructor | src/components/landing/Navbar.tsx:29-31 | Not scrolled and both menus closed |
| LandingNavbar.Navbar.ClickProducts | src/components/landing/Navbar.tsx:111-114 | The products menu flips and the resources menu closes, so at most one is open |
| LandingNavbar.Navbar.ClickResources | src/components/landing/Navbar.tsx:154-157 | The resources menu flips and the products menu closes, so at most one is open |
| LandingNavbar.Navbar.ChooseProduct | src/components/landing/Navbar.tsx:130 | Choosing a product closes the products menu and nothing else |
| LandingNavbar.Navbar.ChooseResource | src/components/landing/Navbar.tsx:173 | Choosing a resource closes the resources menu and nothing else |
| LandingNavbar.Navbar.OnScroll | src/components/landing/Navbar.tsx:35-41 | The bar counts as scrolled exactly beyond 10 pixels |
| LandingNavbar.MenuScenario | src/components/landing/Navbar.tsx:111-173 | Opening products, then resources, then choosing a resource leaves both menus closed |
| AdminSidebar.ActiveLabels | src/components/admin/Sidebar.tsx:40-49 | Exactly the routes whose href prefixes the path are highlighted |
| AdminSidebar.RoutesUnderAdmin | src/components/admin/Sidebar.tsx:8-29 | Every route lies under /admin |
| AdminSidebar.DashboardAlwaysActive | src/components/admin/Sidebar.tsx:46 | Dashboard ("/admin") is highlighted on every admin page |
| AdminSidebar.OutsideAdminNothingActive | src/components/admin/Sidebar.tsx:46 | Outside /admin nothing is highlighted |
| AdminSidebar.NoneActive | src/components/admin/Sidebar.tsx:46 | When no route matches, nothing is highlighted |
| AdminSidebar.BlogCreateHighlightsTwo | src/components/admin/Sidebar.tsx:8-46 | On /admin/blog/create both Dashboard and Blog are highlighted |
| Text.TrimEmptyIffBlank | src/components/blog/BlogPage.tsx:72 | A string trims to empty exactly when it is all ECMAScript whitespace |
| Text.IncludesIffOccurs | src/components/landing/FAQ.tsx:79-80 | `includes` holds exactly when the needle occurs at some position |
| Text.PadZerosValue | src/components/interview/Agent.tsx:243-244 | Left-padding with zeros keeps the digits' value |
| Text.NatToStringValue | src/components/interview/Agent.tsx:243-244 | The decimal digits printed for a number read back as that number |

## Left out

- The voice SDK, the LLM, Prisma, Vercel Blob, cookies, Clerk and the
  router are outside services. Their outcomes become parameters
  (`dbOk`, `generated`, `upload`, `deleteOk`, `saveOk`, the session
  field), and the commands sent to them are recorded in sequence fields.
- `process.env.NEXT_PUBLIC_VAPI_WORKFLOW_ID` becomes the `workflowId`
  constant of a session.
- Rendering, styling, animation, confetti particles, the volume analyser
  and audio are outside the logic.
- Only the colour classes and texts are modelled.
- The score ring's `strokeDashoffset` is a floating-point expression and is
  left out.
- React scheduling is left out.
  - The completion effect is modelled as one function of the current state.
  - It could re-fire on another dependency change; that is not modelled.
  - A repeated call-start would leak a second interval. The model has one
    timer flag.
- Agent.InterviewSession.HandleDisconnect: the code does not stop the
  timer, and it does not set processing either. The model keeps both as
  they were, and the feedback request then waits for the SDK's call-end
  event.
- `onError` only logs and is left out.
- Clocks, `Date.now()` and `new Date()` become the `now` parameter.
  - Dates are integers ordered by `createdAt`.
  - `publishedAt` is kept as the submitted string.
  - Date formatting (`toLocaleDateString`) is left out.
  - The upload filename made from `Date.now()` is left out; the upload's
    URL is a parameter.
- The LLM prompt text and the feedback schema's rubric are left out. The
  generated object is a parameter.
- `handleDelete` calls `window.confirm` and is left out.
- AdminActions.AdminIssues: `saveAdmin` is left out apart from its
  validation schema. Its upload path repeats `savePost`'s, and it stores
  the password unchanged.
  - zod's email check is the `isEmail` parameter.
  - The `avatar` union is not checked.
- AdminActions.SaveOutcome:
  - It treats `postSchema.parse` as the predicate `ParsesAsPost`, which
    requires a reading time and a cover that is a file or a string.
  - zod's coercions are not modelled.
  - A database error is the `dbOk` parameter; the table's own constraints,
    such as a unique slug, are not modelled.
  - An existing post whose author relation is null makes the code read
    `author.id` of `null`; the model returns `AuthorMissing`.
- GeneralActions.Store.UpdateInterview: Prisma throws for an unknown id and
  the code returns null, which the model returns directly.
- GeneralActions.GetFeedbackByInterviewId: `findFirst` has no `orderBy`,
  so the database leaves the order open. The model returns the earliest
  stored row, in insertion order. A second feedback created for the same
  interview and user therefore leaves the lookup on the first one
  (LookupKeepsEarlierFeedback).
- Text.Lower: `toLowerCase` is modelled for ASCII letters only; other
  characters are left unchanged.
- String lengths count characters, not UTF-16 code units, so the 200-
  character excerpt limit and the 8-character password rule are counted in
  Dafny characters.
- Counts and scores are unbounded integers. JavaScript numbers are doubles,
  which differs only beyond 2^53.
- GeneralActions.GetLatestInterviewsSpec: `limit` is a natural number. A
  negative or fractional `take` is not modelled.
- Permissions: `Infinity` is the `Unbounded` limit, and every count is below
  it.
- Pricing, resume, dashboard and other context pages are outside the
  modelled core.
