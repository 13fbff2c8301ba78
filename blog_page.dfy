/** The blog index page: the category and search filter, the featured
    strip, the saved-post bookmarks and the category badges of a card. */
module BlogPage {
  import opened Common
  import opened Text

  datatype Author = Author(name: string, avatar: Option<string>)

  datatype Post = Post(
    id: string,
    title: string,
    excerpt: string,
    categories: seq<string>,
    coverImage: string,
    publishedAt: string,
    author: Author)

  /** The category tab that selects every post. */
  const AllCategory := "All"

  /** The category tabs, in display order. */
  const Categories: seq<string> := [AllCategory, "Resume Building", "ATS Optimization",
    "Interview Preparation", "Career Transitions", "AI Career Tools"]

  /** How many posts the featured strip shows. */
  const FeaturedCount: nat := 3

  // ---------------------------------------------------------------------------
  // Which posts are shown

  /** A lower-cased `term` occurs in the lower-cased title, excerpt, some
      category or the author's name. */
  predicate MatchesTerm(p: Post, term: string)
  {
    || Includes(Lower(p.title), term)
    || Includes(Lower(p.excerpt), term)
    || (exists i :: 0 <= i < |p.categories| && Includes(Lower(p.categories[i]), term))
    || Includes(Lower(p.author.name), term)
  }

  /** The tab "All" keeps everything; any other tab keeps its own posts. */
  predicate MatchesCategory(p: Post, category: string)
  {
    category == AllCategory || category in p.categories
  }

  /** A search that is blank once trimmed keeps everything; otherwise the
      lower-cased term, untrimmed, must match. */
  predicate MatchesSearch(p: Post, searchTerm: string)
  {
    Trim(searchTerm) == "" || MatchesTerm(p, Lower(searchTerm))
  }

  predicate Kept(p: Post, category: string, searchTerm: string)
  {
    MatchesCategory(p, category) && MatchesSearch(p, searchTerm)
  }

  /** The posts listed for a tab and a search: those passing both tests, in
      their original order. */
  function Visible(posts: seq<Post>, category: string, searchTerm: string): seq<Post>
  {
    Filter(posts, p => Kept(p, category, searchTerm))
  }

  /** The featured strip: the first three posts when nothing narrows the
      list, otherwise nothing. */
  function Featured(posts: seq<Post>, category: string, searchTerm: string): seq<Post>
  {
    if category == AllCategory && Trim(searchTerm) == "" then Take(posts, FeaturedCount) else []
  }

  /** Narrowing by the tab and then by the search, each step only when it
      applies, gives the visible posts. */
  lemma NarrowingIsVisible(posts: seq<Post>, category: string, searchTerm: string,
                           byCategory: Post -> bool, bySearch: Post -> bool)
    requires forall p :: byCategory(p) == (category in p.categories)
    requires forall p :: bySearch(p) == MatchesTerm(p, Lower(searchTerm))
    ensures var f := if category != AllCategory then Filter(posts, byCategory) else posts;
            (if Trim(searchTerm) != "" then Filter(f, bySearch) else f) == Visible(posts, category, searchTerm)
  {
    var kept := p => Kept(p, category, searchTerm);
    if category != AllCategory && Trim(searchTerm) != "" {
      FilterFilter(posts, byCategory, bySearch, kept);
    } else if category != AllCategory {
      FilterCongruent(posts, byCategory, kept);
    } else if Trim(searchTerm) != "" {
      FilterCongruent(posts, bySearch, kept);
    } else {
      FilterAll(posts, kept);
    }
  }

  /** The list is the order-preserving sublist of exactly the posts in the
      tab that the search matches. */
  lemma VisibleSpec(posts: seq<Post>, category: string, searchTerm: string)
    ensures IsSubsequence(Visible(posts, category, searchTerm), posts)
    ensures var r := Visible(posts, category, searchTerm);
      && (forall i :: 0 <= i < |r| ==> r[i] in posts && Kept(r[i], category, searchTerm))
      && (forall i :: 0 <= i < |posts| && Kept(posts[i], category, searchTerm) ==> posts[i] in r)
  {
    FilterIsSubsequence(posts, p => Kept(p, category, searchTerm));
  }

  /** A tab other than "All" shows only posts of that category. */
  lemma VisibleInCategory(posts: seq<Post>, category: string, searchTerm: string)
    requires category != AllCategory
    ensures forall i :: 0 <= i < |Visible(posts, category, searchTerm)| ==>
              category in Visible(posts, category, searchTerm)[i].categories
  {
  }

  /** With the "All" tab and a blank search nothing is removed. */
  lemma VisibleUnfiltered(posts: seq<Post>, searchTerm: string)
    requires Trim(searchTerm) == ""
    ensures Visible(posts, AllCategory, searchTerm) == posts
  {
    FilterAll(posts, p => Kept(p, AllCategory, searchTerm));
  }

  /** The featured strip is a prefix of at most three posts, and empty as soon
      as a tab or a search narrows the list. */
  lemma FeaturedSpec(posts: seq<Post>, category: string, searchTerm: string)
    ensures var r := Featured(posts, category, searchTerm);
      && |r| <= FeaturedCount && r == posts[..|r|]
      && (r != [] ==> category == AllCategory && Trim(searchTerm) == "")
      && (category == AllCategory && Trim(searchTerm) == "" && |posts| >= FeaturedCount ==> |r| == FeaturedCount)
  {
  }

  // ---------------------------------------------------------------------------
  // Bookmarks

  /** `toggleSavePost`: an id that is saved is removed (every copy of it), an
      id that is not is appended. */
  function Toggled(saved: seq<string>, postId: string): (r: seq<string>)
    ensures postId in r <==> postId !in saved
    ensures postId !in saved ==> r == saved + [postId]
    ensures forall i :: 0 <= i < |saved| && saved[i] != postId ==> saved[i] in r
    ensures forall i :: 0 <= i < |r| && r[i] != postId ==> r[i] in saved
  {
    if postId in saved then Filter(saved, id => id != postId) else saved + [postId]
  }

  /** Toggling an unsaved id twice restores the bookmarks exactly. */
  lemma ToggleTwice(saved: seq<string>, postId: string)
    requires postId !in saved
    ensures Toggled(Toggled(saved, postId), postId) == saved
  {
    var keep := (id: string) => id != postId;
    FilterAppend(saved, [postId], keep);
    FilterAll(saved, keep);
    assert Filter([postId], keep) == [];
  }

  // ---------------------------------------------------------------------------
  // Card badges

  datatype Badge = CategoryBadge(name: string) | MoreBadge(hidden: nat)

  function BadgeText(b: Badge): string
  {
    match b
    case CategoryBadge(name) => name
    case MoreBadge(n) => "+" + NatToString(n)
  }

  /** A card's badges: its first two categories, then `+n` for the other n
      when there are more than two. */
  function CardBadges(categories: seq<string>): (r: seq<Badge>)
    ensures |categories| <= 2 ==> |r| == |categories|
    ensures |categories| > 2 ==> |r| == 3 && r[2] == MoreBadge(|categories| - 2)
    ensures forall i :: 0 <= i < |r| && i < 2 ==> r[i] == CategoryBadge(categories[i])
  {
    var shown := Take(categories, 2);
    seq(|shown|, i requires 0 <= i < |shown| => CategoryBadge(shown[i]))
      + (if |categories| > 2 then [MoreBadge(|categories| - 2)] else [])
  }

  // ---------------------------------------------------------------------------
  // The page state

  class BlogPageState {
    const posts: seq<Post>
    var activeCategory: string
    var searchTerm: string
    var filteredPosts: seq<Post>
    var featuredPosts: seq<Post>
    var savedPosts: seq<string>

    /** The filter effect has run for the current tab and search. */
    ghost predicate Valid()
      reads this
    {
      && filteredPosts == Visible(posts, activeCategory, searchTerm)
      && featuredPosts == Featured(posts, activeCategory, searchTerm)
    }

    /** The initial state: "All", no search, every post listed, the first three
        featured and nothing bookmarked. It is already the effect's result. */
    constructor (posts: seq<Post>)
      ensures this.posts == posts && activeCategory == AllCategory && searchTerm == ""
      ensures filteredPosts == posts && featuredPosts == Take(posts, FeaturedCount)
      ensures savedPosts == []
      ensures Valid()
    {
      this.posts := posts;
      activeCategory := AllCategory;
      searchTerm := "";
      filteredPosts := posts;
      featuredPosts := Take(posts, FeaturedCount);
      savedPosts := [];
      new;
      VisibleUnfiltered(posts, "");
    }

    /** The filter effect: a copy of the posts, narrowed by the tab, then by
        the search, then published together with the featured strip. */
    method ApplyFilters()
      modifies this`filteredPosts, this`featuredPosts
      ensures Valid()
    {
      var category, search := activeCategory, searchTerm;
      var term := Lower(search);
      var byCategory := (p: Post) => category in p.categories;
      var bySearch := (p: Post) => MatchesTerm(p, term);
      var filtered := posts;
      if category != AllCategory {
        filtered := Filter(filtered, byCategory);
      }
      if Trim(search) != "" {
        filtered := Filter(filtered, bySearch);
      }
      NarrowingIsVisible(posts, category, search, byCategory, bySearch);
      filteredPosts := filtered;
      if category == AllCategory && Trim(search) == "" {
        featuredPosts := Take(posts, FeaturedCount);
      } else {
        featuredPosts := [];
      }
    }

    /** Typing in the search box, followed by the effect. */
    method SetSearchTerm(term: string)
      modifies this
      ensures searchTerm == term && activeCategory == old(activeCategory)
      ensures savedPosts == old(savedPosts)
      ensures Valid()
    {
      searchTerm := term;
      ApplyFilters();
    }

    /** Choosing a tab, followed by the effect. */
    method SetActiveCategory(category: string)
      modifies this
      ensures activeCategory == category && searchTerm == old(searchTerm)
      ensures savedPosts == old(savedPosts)
      ensures Valid()
    {
      activeCategory := category;
      ApplyFilters();
    }

    /** "Reset filters": no search, the "All" tab, and so every post listed
        and the first three featured again. */
    method ResetFilters()
      modifies this
      ensures searchTerm == "" && activeCategory == AllCategory
      ensures filteredPosts == posts && featuredPosts == Take(posts, FeaturedCount)
      ensures savedPosts == old(savedPosts)
      ensures Valid()
    {
      searchTerm := "";
      activeCategory := AllCategory;
      ApplyFilters();
      VisibleUnfiltered(posts, "");
    }

    /** Clicking a card's bookmark. */
    method ToggleSavePost(postId: string)
      modifies this`savedPosts
      ensures savedPosts == Toggled(old(savedPosts), postId)
    {
      savedPosts := Toggled(savedPosts, postId);
    }
  }
}
