/** The landing page (components/MainPage.tsx): the search and category
    filter, the per-category counts shown while loading, and the choice of
    what the page body shows. */
module MainPage {
  import opened Seqs
  import opened Blog
  import opened Text

  /** The pseudo-category that selects every post. */
  const AllCategories: string := "All"

  /** `matchesCategory`: the selection is `'All'` or the post's category. */
  predicate MatchesCategory(p: Post, selected: string): (b: bool)
    ensures selected == AllCategories ==> b
    ensures forall c :: selected == Label(c) ==> (b <==> p.category == c)
    ensures b ==> selected == AllCategories || selected == Label(Frontend) || selected == Label(Backend)
  {
    selected == AllCategories || Label(p.category) == selected
  }

  /** `matchesSearch`: the lower-cased term occurs in the lower-cased title
      or in some lower-cased tag. */
  predicate MatchesSearch(p: Post, term: string): (b: bool)
    ensures term == "" ==> b
    ensures b ==> |term| <= |p.title| || exists tag :: tag in p.tags && |term| <= |tag|
  {
    IncludesEmpty(ToLower(p.title));
    Includes(ToLower(p.title), ToLower(term))
    || exists tag :: tag in p.tags && Includes(ToLower(tag), ToLower(term))
  }

  /** The test applied by `filteredPosts`. */
  function Shown(term: string, selected: string): Post -> bool
  {
    (p: Post) => MatchesCategory(p, selected) && MatchesSearch(p, term)
  }

  /** `filteredPosts`: the posts that pass both the category and the search test. */
  function FilteredPosts(posts: seq<Post>, term: string, selected: string): (r: seq<Post>)
    ensures forall p :: p in r <==> p in posts && MatchesCategory(p, selected) && MatchesSearch(p, term)
    ensures IsSubsequence(r, posts)
  {
    FilterMembers(posts, Shown(term, selected));
    FilterIsSubsequence(posts, Shown(term, selected));
    Filter(posts, Shown(term, selected))
  }

  /** What a post being shown means in terms of substrings: the category
      test, and an occurrence of the lower-cased term in the lower-cased
      title or in a lower-cased tag. */
  lemma ShownMeansOccurs(posts: seq<Post>, term: string, selected: string, p: Post)
    ensures var t := ToLower(term);
      p in FilteredPosts(posts, term, selected)
      <==> p in posts && (selected == AllCategories || Label(p.category) == selected)
           && ((exists i :: OccursAt(ToLower(p.title), t, i))
               || (exists tag, i :: tag in p.tags && OccursAt(ToLower(tag), t, i)))
  {
    var t := ToLower(term);
    if exists tag :: tag in p.tags && Includes(ToLower(tag), t) {
      var tag :| tag in p.tags && Includes(ToLower(tag), t);
      var i :| OccursAt(ToLower(tag), t, i);
    }
    if exists tag, i :: tag in p.tags && OccursAt(ToLower(tag), t, i) {
      var tag, i :| tag in p.tags && OccursAt(ToLower(tag), t, i);
      assert Includes(ToLower(tag), t);
    }
  }

  /** The initial filter, category `'All'` and an empty search term, shows
      every post, in order. */
  lemma InitialFilterShowsAll(posts: seq<Post>)
    ensures FilteredPosts(posts, "", AllCategories) == posts
  {
    assert ToLower("") == "";
    forall i | 0 <= i < |posts| ensures Shown("", AllCategories)(posts[i]) {
      IncludesEmpty(ToLower(posts[i].title));
    }
    FilterKeepsAll(posts, Shown("", AllCategories));
  }

  /** The search ignores case: terms with the same lower-case form show the
      same posts. */
  lemma SearchIgnoresCase(posts: seq<Post>, term1: string, term2: string, selected: string)
    requires ToLower(term1) == ToLower(term2)
    ensures FilteredPosts(posts, term1, selected) == FilteredPosts(posts, term2, selected)
  {
    FilterAgree(posts, Shown(term1, selected), Shown(term2, selected));
  }

  /** In particular, searching for the lower-cased term gives the same result. */
  lemma SearchLowerCased(posts: seq<Post>, term: string, selected: string)
    ensures FilteredPosts(posts, ToLower(term), selected) == FilteredPosts(posts, term, selected)
  {
    ToLowerIdempotent(term);
    SearchIgnoresCase(posts, ToLower(term), term, selected);
  }

  /** Selecting a category is searching within that category's posts. */
  lemma SelectedCategoryFilter(posts: seq<Post>, term: string, c: Category)
    ensures FilteredPosts(posts, term, Label(c)) == FilteredPosts(CategoryPosts(posts, c), term, AllCategories)
  {
    assert forall d :: Label(d) == Label(c) ==> d == c;
    FilterFilter(posts, InCategory(c), Shown(term, AllCategories), Shown(term, Label(c)));
  }

  /** A selection that is neither `'All'` nor a category's value shows nothing. */
  lemma UnknownCategoryShowsNothing(posts: seq<Post>, term: string, selected: string)
    requires selected != AllCategories && selected != Label(Frontend) && selected != Label(Backend)
    ensures FilteredPosts(posts, term, selected) == []
  {
    FilterKeepsNone(posts, Shown(term, selected));
  }

  /** What `renderBody` returns. */
  datatype Body =
    | Skeleton(frontendCount: nat, backendCount: nat)
    | Listing(posts: seq<Post>)
    | EmptyState

  /** `renderBody`: the skeleton while loading, sized by the per-category
      counts of the whole catalog; then the filtered list when it is
      non-empty; otherwise the empty state. */
  function RenderBody(loading: bool, posts: seq<Post>, term: string, selected: string): (b: Body)
    ensures b.Skeleton? <==> loading
    ensures b.Skeleton? ==> b.frontendCount + b.backendCount == |posts|
    ensures b.Listing? ==> b.posts != [] && IsSubsequence(b.posts, posts)
    ensures b.EmptyState? <==> !loading && forall p :: p in posts ==> !(MatchesCategory(p, selected) && MatchesSearch(p, term))
  {
    var frontendPosts := CategoryPosts(posts, Frontend);
    var backendPosts := CategoryPosts(posts, Backend);
    var filteredPosts := FilteredPosts(posts, term, selected);
    if loading then
      CategoriesPartition(posts);
      Skeleton(|frontendPosts|, |backendPosts|)
    else if |filteredPosts| > 0 then
      Listing(filteredPosts)
    else
      EmptyState
  }

  /** While loading, the skeleton's counts are the sizes of the two category
      lists, whatever the search term and selected category. */
  lemma SkeletonCounts(posts: seq<Post>, term: string, selected: string)
    ensures RenderBody(true, posts, term, selected)
         == Skeleton(|CategoryPosts(posts, Frontend)|, |CategoryPosts(posts, Backend)|)
  {
  }

  /** After loading, the list shown is exactly the filtered posts. */
  lemma ListingIsFiltered(posts: seq<Post>, term: string, selected: string)
    requires FilteredPosts(posts, term, selected) != []
    ensures RenderBody(false, posts, term, selected) == Listing(FilteredPosts(posts, term, selected))
  {
  }

  /** The page's state: the three `useState` fields over a fixed catalog. */
  class MainPageState {
    const posts: seq<Post>
    var searchTerm: string
    var selectedCategory: string
    var loading: bool

    /** The initial state: empty search, every category, loading. */
    constructor (posts: seq<Post>)
      ensures this.posts == posts
      ensures searchTerm == "" && selectedCategory == AllCategories && loading
      ensures Body() == Skeleton(|CategoryPosts(posts, Frontend)|, |CategoryPosts(posts, Backend)|)
      ensures !ShowsCallToAction()
    {
      this.posts := posts;
      searchTerm := "";
      selectedCategory := AllCategories;
      loading := true;
    }

    /** The body the page renders in its current state. */
    function Body(): Body
      reads this
    {
      RenderBody(loading, posts, searchTerm, selectedCategory)
    }

    /** The call-to-action is rendered only once loading has finished. */
    predicate ShowsCallToAction(): (b: bool)
      reads this
      ensures b <==> !Body().Skeleton?
    {
      !loading
    }

    /** `setSearchTerm`, called by the search box. */
    method SetSearchTerm(term: string)
      modifies this
      ensures searchTerm == term
      ensures selectedCategory == old(selectedCategory) && loading == old(loading)
    {
      searchTerm := term;
    }

    /** `setSelectedCategory`, called by the category dropdown. */
    method SetSelectedCategory(selected: string)
      modifies this
      ensures selectedCategory == selected
      ensures searchTerm == old(searchTerm) && loading == old(loading)
    {
      selectedCategory := selected;
    }

    /** `setLoading(false)`, run once by the simulated load timer. */
    method FinishLoading()
      modifies this
      ensures !loading && ShowsCallToAction() && !Body().Skeleton?
      ensures searchTerm == old(searchTerm) && selectedCategory == old(selectedCategory)
    {
      loading := false;
    }
  }
}
