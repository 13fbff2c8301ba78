/** The "Related Articles" strip under a blog post. */
module RelatedPosts {
  import opened Common
  import opened BlogPage

  /** How many related posts are shown at most. */
  const MaxRelated: nat := 3

  /** Some category of `post` is one of `categories`. */
  predicate SharesCategory(post: Post, categories: seq<string>)
  {
    exists i :: 0 <= i < |post.categories| && post.categories[i] in categories
  }

  predicate IsRelated(post: Post, currentPostId: string, categories: seq<string>)
  {
    post.id != currentPostId && SharesCategory(post, categories)
  }

  /** The first three posts, in catalogue order, that are not the current one
      and share a category with it. */
  function Related(allPosts: seq<Post>, currentPostId: string, categories: seq<string>): seq<Post>
  {
    Take(Filter(allPosts, p => IsRelated(p, currentPostId, categories)), MaxRelated)
  }

  /** The strip is rendered only when it has a post. */
  predicate Renders(allPosts: seq<Post>, currentPostId: string, categories: seq<string>)
  {
    |Related(allPosts, currentPostId, categories)| != 0
  }

  /** Every related post is another post of the catalogue sharing a category;
      there are at most three; they keep catalogue order; and fewer than three
      means no eligible post was left out. */
  lemma RelatedSpec(allPosts: seq<Post>, currentPostId: string, categories: seq<string>)
    ensures var r := Related(allPosts, currentPostId, categories);
      && |r| <= MaxRelated
      && (forall i :: 0 <= i < |r| ==>
            && r[i] in allPosts && r[i].id != currentPostId
            && SharesCategory(r[i], categories))
      && IsSubsequence(r, allPosts)
      && (|r| < MaxRelated ==>
            forall i :: 0 <= i < |allPosts| && IsRelated(allPosts[i], currentPostId, categories) ==> allPosts[i] in r)
    // with more eligible posts than fit, the first three of them in catalogue order are kept
    ensures var e := Filter(allPosts, p => IsRelated(p, currentPostId, categories));
      var r := Related(allPosts, currentPostId, categories);
      && |r| == (if |e| < MaxRelated then |e| else MaxRelated)
      && r == e[..|r|]
  {
    var f := Filter(allPosts, p => IsRelated(p, currentPostId, categories));
    var r := Take(f, MaxRelated);
    forall i | 0 <= i < |r|
      ensures r[i] in allPosts && r[i].id != currentPostId && SharesCategory(r[i], categories)
    {
      assert r[i] == f[i];
    }
    TakeIsSubsequence(f, MaxRelated);
    FilterIsSubsequence(allPosts, p => IsRelated(p, currentPostId, categories));
    SubsequenceTransitive(r, f, allPosts);
  }

  /** With no categories to share nothing is related and nothing is rendered. */
  lemma NoCategoriesNoRelated(allPosts: seq<Post>, currentPostId: string)
    ensures Related(allPosts, currentPostId, []) == []
    ensures !Renders(allPosts, currentPostId, [])
  {
    FilterNone(allPosts, p => IsRelated(p, currentPostId, []));
  }
}
