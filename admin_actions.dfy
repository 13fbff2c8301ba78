/** The admin server actions: saving a blog post (ownership, author and
    cover image rules), the admin schema, logging in, the current admin
    from the session cookie and logging out. The post and admin tables,
    the `adminId` cookie and the blob store are fields of one store; the
    upload, the database's acceptance of a write, the clock and the id
    generator are parameters. */
module AdminActions {
  import opened Common
  import opened PostForm

  // ---------------------------------------------------------------------------
  // Records

  datatype AdminRow = AdminRow(id: string, name: string, email: string, password: string, avatar: string)

  /** What the actions reveal of an admin: everything but the password. */
  datatype PublicAdmin = PublicAdmin(id: string, name: string, email: string, avatar: string)

  function Public(a: AdminRow): PublicAdmin
  {
    PublicAdmin(a.id, a.name, a.email, a.avatar)
  }

  datatype PostRow = PostRow(
    id: string,
    slug: string,
    title: string,
    content: string,
    excerpt: string,
    coverImage: string,
    categories: seq<string>,
    published: bool,
    readingTime: string,
    publishedAt: string,
    authorId: Option<string>,
    createdAt: int)

  /** Why `savePost` threw: the values fail the post schema; the existing
      post has no author to compare (reading `author.id` of `null`); the
      current admin is not its author; the upload failed; the database
      refused the write. */
  datatype SaveError = InvalidPost | AuthorMissing | NotAuthorized | UploadFailed | WriteFailed

  const NotAuthorizedMessage := "Not authorized to edit this post"

  /** What happened in the blob store. */
  datatype BlobOp = Deleted(url: string) | Uploaded(url: string)

  // ---------------------------------------------------------------------------
  // Current admin

  /** The two unique columns of the admin table that the actions look up by. */
  datatype AdminKey = IdKey | EmailKey

  function KeyOf(a: AdminRow, key: AdminKey): string
  {
    match key
    case IdKey => a.id
    case EmailKey => a.email
  }

  /** `prisma.admin.findUnique` on the id or the email column. */
  function FindAdmin(admins: seq<AdminRow>, key: AdminKey, value: string): (r: Option<AdminRow>)
    ensures r.Some? ==> r.value in admins && KeyOf(r.value, key) == value
    ensures r.None? ==> forall i :: 0 <= i < |admins| ==> KeyOf(admins[i], key) != value
  {
    if admins == [] then None
    else if KeyOf(admins[0], key) == value then Some(admins[0])
    else FindAdmin(admins[1..], key, value)
  }

  /** `getCurrentAdmin`: nobody without a non-empty `adminId` cookie,
      otherwise the public record of the admin with that id, if any. */
  function CurrentAdmin(admins: seq<AdminRow>, session: Option<string>): (r: Option<PublicAdmin>)
    ensures !Truthy(session) ==> r == None
    ensures Truthy(session) && (exists i :: 0 <= i < |admins| && admins[i].id == session.value) ==> r.Some?
    ensures r.Some? ==> exists i :: 0 <= i < |admins| && admins[i].id == session.value && r.value == Public(admins[i])
  {
    if !Truthy(session) then None
    else match FindAdmin(admins, IdKey, session.value)
      case None => None
      case Some(a) => Some(Public(a))
  }

  // ---------------------------------------------------------------------------
  // Login

  datatype LoginError = MissingCredentials | InvalidCredentials

  function LoginMessage(e: LoginError): string
  {
    match e
    case MissingCredentials => "Email and password are required"
    case InvalidCredentials => "Invalid email or password"
  }

  /** `getAdmin`'s checks in order: both fields non-empty, an admin with the
      email, the same password. An unknown email and a wrong password fail
      alike. */
  function Login(admins: seq<AdminRow>, email: string, password: string): (r: Result<PublicAdmin, LoginError>)
    ensures email == "" || password == "" ==> r == Err(MissingCredentials)
    ensures email != "" && password != "" && r.Err? ==> r.error == InvalidCredentials
    ensures r.Ok? ==>
              exists i :: (0 <= i < |admins| && admins[i].email == email
                           && admins[i].password == password && r.value == Public(admins[i]))
  {
    if email == "" || password == "" then Err(MissingCredentials)
    else match FindAdmin(admins, EmailKey, email)
      case None => Err(InvalidCredentials)
      case Some(a) => if password == a.password then Ok(Public(a)) else Err(InvalidCredentials)
  }

  /** No two admins share a value in the column. */
  ghost predicate Unique(admins: seq<AdminRow>, key: AdminKey)
  {
    forall i, j :: 0 <= i < j < |admins| ==> KeyOf(admins[i], key) != KeyOf(admins[j], key)
  }

  ghost predicate UniqueEmails(admins: seq<AdminRow>)
  {
    Unique(admins, EmailKey)
  }

  ghost predicate UniqueAdminIds(admins: seq<AdminRow>)
  {
    Unique(admins, IdKey)
  }

  /** In a unique column the lookup finds the one admin holding the value. */
  lemma {:induction false} FindUnique(admins: seq<AdminRow>, key: AdminKey, k: nat)
    requires Unique(admins, key) && k < |admins|
    ensures FindAdmin(admins, key, KeyOf(admins[k], key)) == Some(admins[k])
  {
    if k > 0 {
      assert KeyOf(admins[0], key) != KeyOf(admins[k], key);
      assert Unique(admins[1..], key) by {
        forall i, j | 0 <= i < j < |admins[1..]|
          ensures KeyOf(admins[1..][i], key) != KeyOf(admins[1..][j], key)
        {
          assert admins[1..][i] == admins[i + 1] && admins[1..][j] == admins[j + 1];
        }
      }
      assert admins[1..][k - 1] == admins[k];
      FindUnique(admins[1..], key, k - 1);
    }
  }

  /** With unique emails, a login succeeds exactly when some admin has both
      the email and the password, and then it is that admin. */
  lemma LoginSucceedsIff(admins: seq<AdminRow>, email: string, password: string)
    requires UniqueEmails(admins) && email != "" && password != ""
    ensures Login(admins, email, password).Ok? <==>
              exists i :: 0 <= i < |admins| && admins[i].email == email && admins[i].password == password
  {
    if exists i :: 0 <= i < |admins| && admins[i].email == email && admins[i].password == password {
      var k :| 0 <= k < |admins| && admins[k].email == email && admins[k].password == password;
      FindUnique(admins, EmailKey, k);
    }
  }

  /** An unknown email and a known email with another password give the
      same error. */
  lemma LoginFailuresAlike(admins: seq<AdminRow>, email: string, password: string, k: nat)
    requires UniqueEmails(admins) && email != "" && password != ""
    requires k < |admins| && admins[k].email == email && admins[k].password != password
    ensures Login(admins, email, password) == Err(InvalidCredentials)
    ensures forall unknown :: unknown != "" && (forall i :: 0 <= i < |admins| ==> admins[i].email != unknown)
              ==> Login(admins, unknown, password) == Err(InvalidCredentials)
  {
    FindUnique(admins, EmailKey, k);
  }

  // ---------------------------------------------------------------------------
  // Admin schema

  /** The admin schema's issues in field order; `isEmail` stands for the
      schema's e-mail check. */
  function AdminIssues(name: string, email: string, password: string, isEmail: string -> bool): (issues: seq<string>)
    ensures issues == [] <==> |name| >= 1 && isEmail(email) && |password| >= 8
    ensures "Name is required" in issues <==> name == ""
    ensures "Invalid email address" in issues <==> !isEmail(email)
    ensures "Password must be at least 8 characters" in issues <==> |password| < 8
  {
    (if |name| < 1 then ["Name is required"] else [])
    + (if isEmail(email) then [] else ["Invalid email address"])
    + (if |password| < 8 then ["Password must be at least 8 characters"] else [])
  }

  // ---------------------------------------------------------------------------
  // Saving a post

  /** The post schema: a file or a string cover, and a reading time. */
  predicate ParsesAsPost(v: FormValues)
  {
    (v.coverImage.FileUpload? || v.coverImage.Url?) && v.readingTime.Some?
  }

  /** The post being edited: looked up only for a non-empty id. */
  function ExistingPost(posts: map<string, PostRow>, id: Option<string>): (e: Option<PostRow>)
    ensures e.Some? <==> Truthy(id) && id.value in posts
    ensures e.Some? ==> e.value == posts[id.value]
  {
    if Truthy(id) && id.value in posts then Some(posts[id.value]) else None
  }

  /** `existingPost?.authorId || currentAdmin?.id`. */
  function AuthorFor(existing: Option<PostRow>, current: Option<PublicAdmin>): Option<string>
  {
    if existing.Some? && Truthy(existing.value.authorId) then existing.value.authorId
    else if current.Some? then Some(current.value.id)
    else None
  }

  /** The values parse and, when the post already exists, its author is the
      current admin. */
  predicate PassesChecks(posts: map<string, PostRow>, current: Option<PublicAdmin>, v: FormValues)
  {
    && ParsesAsPost(v)
    && var existing := ExistingPost(posts, v.id);
       existing.Some? ==>
         existing.value.authorId.Some? && current.Some? && existing.value.authorId.value == current.value.id
  }

  /** The stored cover: the upload's URL for a file, the string as given. */
  function CoverUrl(cover: CoverImage, upload: Option<string>): Option<string>
  {
    match cover
    case FileUpload(_) => upload
    case Url(u) => Some(u)
    case NoImage => None
    case EmptyObject => None
  }

  /** What `savePost` returns or throws. */
  function SaveOutcome(posts: map<string, PostRow>, current: Option<PublicAdmin>, s: Submission,
                       upload: Option<string>, newId: string, now: int, dbOk: bool): (r: Result<PostRow, SaveError>)
    ensures !ParsesAsPost(s.values) ==> r == Err(InvalidPost)
    ensures (ParsesAsPost(s.values) && ExistingPost(posts, s.values.id).Some?
             && ExistingPost(posts, s.values.id).value.authorId.Some?
             && (current.None? || ExistingPost(posts, s.values.id).value.authorId.value != current.value.id))
            ==> r == Err(NotAuthorized)
    ensures r.Ok? ==> PassesChecks(posts, current, s.values)
    // the author: the existing post's when it has one, otherwise the current admin
    ensures r.Ok? ==> r.value.authorId == AuthorFor(ExistingPost(posts, s.values.id), current)
    ensures r.Ok? && ExistingPost(posts, s.values.id).Some? ==>
              r.value.authorId == ExistingPost(posts, s.values.id).value.authorId
    ensures r.Ok? && ExistingPost(posts, s.values.id).None? && current.Some? ==> r.value.authorId == Some(current.value.id)
    // the cover: a string is kept verbatim, a file becomes the upload's URL
    ensures r.Ok? && s.values.coverImage.Url? ==> r.value.coverImage == s.values.coverImage.url
    ensures r.Ok? && s.values.coverImage.FileUpload? ==> upload == Some(r.value.coverImage)
    ensures s.values.coverImage.FileUpload? && upload.None? ==> r.Err?
    // an id means an update of that post, no id means a new post
    ensures r.Ok? && Truthy(s.values.id) ==>
              r.value.id == s.values.id.value && s.values.id.value in posts
              && r.value.createdAt == posts[s.values.id.value].createdAt
    // a missing id takes the database's fresh id; an empty one is written as it is
    ensures r.Ok? && !Truthy(s.values.id) ==>
              r.value.id == s.values.id.GetOr(newId) && r.value.id !in posts && r.value.createdAt == now
    // the content is stored as submitted
    ensures r.Ok? ==>
              && r.value.slug == s.values.slug && r.value.title == s.values.title
              && r.value.content == s.values.content && r.value.excerpt == s.values.excerpt
              && r.value.categories == s.values.categories && r.value.published == s.values.published
              && s.values.readingTime == Some(r.value.readingTime) && r.value.publishedAt == s.publishedAt
    ensures r.Ok? ==> dbOk
  {
    var v := s.values;
    if !ParsesAsPost(v) then Err(InvalidPost)
    else
      var existing := ExistingPost(posts, v.id);
      if existing.Some? && existing.value.authorId.None? then Err(AuthorMissing)
      else if existing.Some? && (current.None? || existing.value.authorId.value != current.value.id) then Err(NotAuthorized)
      else match CoverUrl(v.coverImage, upload)
        case None => Err(UploadFailed)
        case Some(url) =>
          var authorId := AuthorFor(existing, current);
          if Truthy(v.id) then
            if !dbOk || v.id.value !in posts then Err(WriteFailed)
            else Ok(PostRow(v.id.value, v.slug, v.title, v.content, v.excerpt, url, v.categories, v.published,
                            v.readingTime.value, s.publishedAt, authorId, posts[v.id.value].createdAt))
          else
            var rowId := v.id.GetOr(newId);
            if !dbOk || rowId in posts then Err(WriteFailed)
            else Ok(PostRow(rowId, v.slug, v.title, v.content, v.excerpt, url, v.categories, v.published,
                            v.readingTime.value, s.publishedAt, authorId, now))
  }

  /** The blob store operations of a save: after the checks, a file cover
      first deletes the existing post's non-empty cover (a failed delete is
      swallowed), then uploads (a failed upload leaves no blob). */
  function BlobEffects(posts: map<string, PostRow>, current: Option<PublicAdmin>, s: Submission,
                       upload: Option<string>, deleteOk: bool): (ops: seq<BlobOp>)
    ensures !s.values.coverImage.FileUpload? ==> ops == []
    ensures !PassesChecks(posts, current, s.values) ==> ops == []
    ensures |ops| <= 2
    // a delete comes first, is of the existing post's cover, and only when it succeeded
    ensures forall i :: 0 <= i < |ops| && ops[i].Deleted? ==>
              && i == 0 && deleteOk
              && ExistingPost(posts, s.values.id).Some?
              && ops[i].url == ExistingPost(posts, s.values.id).value.coverImage != ""
    // the upload comes last, and happens whatever became of the delete
    ensures (|ops| >= 1 && ops[|ops| - 1].Uploaded?) <==>
              PassesChecks(posts, current, s.values) && s.values.coverImage.FileUpload? && upload.Some?
    ensures |ops| >= 1 && ops[|ops| - 1].Uploaded? ==> upload == Some(ops[|ops| - 1].url)
  {
    if !PassesChecks(posts, current, s.values) || !s.values.coverImage.FileUpload? then []
    else
      var existing := ExistingPost(posts, s.values.id);
      (if existing.Some? && existing.value.coverImage != "" && deleteOk then [Deleted(existing.value.coverImage)] else [])
      + (if upload.Some? then [Uploaded(upload.value)] else [])
  }

  /** A save by someone other than the author of an existing post is refused
      before the blob store or the table is touched. */
  lemma NotAuthorizedTouchesNothing(posts: map<string, PostRow>, current: Option<PublicAdmin>, s: Submission,
                                    upload: Option<string>, deleteOk: bool, newId: string, now: int, dbOk: bool)
    requires ParsesAsPost(s.values) && Truthy(s.values.id) && s.values.id.value in posts
    requires posts[s.values.id.value].authorId.Some?
    requires current.None? || posts[s.values.id.value].authorId.value != current.value.id
    ensures SaveOutcome(posts, current, s, upload, newId, now, dbOk) == Err(NotAuthorized)
    ensures BlobEffects(posts, current, s, upload, deleteOk) == []
  {
  }

  // ---------------------------------------------------------------------------
  // The store

  class AdminStore {
    var posts: map<string, PostRow>
    var admins: seq<AdminRow>
    /** The `adminId` cookie. */
    var session: Option<string>
    var blobs: seq<BlobOp>

    /** Every post is stored under its own id; admin ids and emails are unique. */
    ghost predicate Valid()
      reads this
    {
      && (forall k :: k in posts ==> posts[k].id == k)
      && UniqueAdminIds(admins) && UniqueEmails(admins)
    }

    constructor (admins: seq<AdminRow>)
      requires UniqueAdminIds(admins) && UniqueEmails(admins)
      ensures this.admins == admins && posts == map[] && session == None && blobs == []
      ensures Valid()
    {
      this.admins := admins;
      posts := map[];
      session := None;
      blobs := [];
    }

    function GetCurrentAdmin(): Option<PublicAdmin>
      reads this
    {
      CurrentAdmin(admins, session)
    }

    /** `savePost`. `upload` is the URL `put` returns (`None`: it threw),
        `deleteOk` whether `del` succeeded, `dbOk` whether the database
        accepts the write, `newId` the id it would give a new row submitted without an id. */
    method SavePost(s: Submission, upload: Option<string>, deleteOk: bool, newId: string, now: int, dbOk: bool)
      returns (r: Result<PostRow, SaveError>)
      requires Valid()
      modifies this`posts, this`blobs
      ensures Valid()
      ensures r == SaveOutcome(old(posts), CurrentAdmin(admins, session), s, upload, newId, now, dbOk)
      ensures posts == if r.Ok? then old(posts)[r.value.id := r.value] else old(posts)
      ensures blobs == old(blobs) + BlobEffects(old(posts), CurrentAdmin(admins, session), s, upload, deleteOk)
    {
      var v := s.values;
      if !(v.coverImage.FileUpload? || v.coverImage.Url?) || v.readingTime.None? {
        return Err(InvalidPost);
      }
      var existing := if Truthy(v.id) && v.id.value in posts then Some(posts[v.id.value]) else None;
      var currentAdmin := GetCurrentAdmin();
      var authorId := AuthorFor(existing, currentAdmin);
      if existing.Some? && existing.value.authorId.None? {
        return Err(AuthorMissing);
      }
      if existing.Some? && (currentAdmin.None? || existing.value.authorId.value != currentAdmin.value.id) {
        return Err(NotAuthorized);
      }
      var coverImageUrl: string;
      if v.coverImage.FileUpload? {
        if existing.Some? && existing.value.coverImage != "" && deleteOk {
          blobs := blobs + [Deleted(existing.value.coverImage)];
        }
        if upload.None? {
          return Err(UploadFailed);
        }
        blobs := blobs + [Uploaded(upload.value)];
        coverImageUrl := upload.value;
      } else {
        coverImageUrl := v.coverImage.url;
      }
      if Truthy(v.id) {
        if !dbOk || v.id.value !in posts {
          return Err(WriteFailed);
        }
        var row := PostRow(v.id.value, v.slug, v.title, v.content, v.excerpt, coverImageUrl, v.categories,
                           v.published, v.readingTime.value, s.publishedAt, authorId, posts[v.id.value].createdAt);
        posts := posts[v.id.value := row];
        r := Ok(row);
      } else {
        var rowId := v.id.GetOr(newId);
        if !dbOk || rowId in posts {
          return Err(WriteFailed);
        }
        var row := PostRow(rowId, v.slug, v.title, v.content, v.excerpt, coverImageUrl, v.categories,
                           v.published, v.readingTime.value, s.publishedAt, authorId, now);
        posts := posts[rowId := row];
        r := Ok(row);
      }
    }

    /** `getAdmin`: on success the session cookie names the admin. */
    method GetAdmin(email: string, password: string) returns (r: Result<PublicAdmin, LoginError>)
      requires Valid()
      modifies this`session
      ensures Valid()
      ensures r == Login(admins, email, password)
      ensures session == if r.Ok? then Some(r.value.id) else old(session)
    {
      if email == "" || password == "" {
        return Err(MissingCredentials);
      }
      var admin := FindAdmin(admins, EmailKey, email);
      if admin.None? {
        return Err(InvalidCredentials);
      }
      if password != admin.value.password {
        return Err(InvalidCredentials);
      }
      session := Some(admin.value.id);
      r := Ok(Public(admin.value));
    }

    /** `logoutAdmin`: the cookie is removed and nobody is logged in. */
    method LogoutAdmin() returns (success: bool)
      modifies this`session
      ensures session == None && success
      ensures GetCurrentAdmin() == None
    {
      session := None;
      success := true;
    }
  }

  /** After a successful login the current admin is the one who logged in. */
  lemma LoginThenCurrent(admins: seq<AdminRow>, email: string, password: string)
    requires UniqueAdminIds(admins) && forall i :: 0 <= i < |admins| ==> admins[i].id != ""
    requires Login(admins, email, password).Ok?
    ensures CurrentAdmin(admins, Some(Login(admins, email, password).value.id)) == Some(Login(admins, email, password).value)
  {
    var p := Login(admins, email, password).value;
    var k :| 0 <= k < |admins| && admins[k].email == email && admins[k].password == password && p == Public(admins[k]);
    FindUnique(admins, IdKey, k);
  }
}
