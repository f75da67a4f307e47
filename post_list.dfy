/** The grouped post list (components/main/PostList.tsx, and its older copy
    components/PostList.tsx, whose logic is the same): a Frontend group, then
    a Backend group, each with a heading and one card per post. */
module PostList {
  import opened Seqs
  import opened Blog

  /** One element of the rendered grid. `spaced` is the extra top margin
      (`mt-16`) of a heading. */
  datatype Block = Heading(category: Category, spaced: bool) | Card(post: Post)

  /** The category a block belongs to. */
  function BlockCategory(b: Block): Category
  {
    match b
    case Heading(c, _) => c
    case Card(p) => p.category
  }

  /** One card per post, in order. */
  function Cards(posts: seq<Post>): (r: seq<Block>)
    ensures |r| == |posts|
    ensures forall i :: 0 <= i < |posts| ==> r[i] == Card(posts[i])
  {
    seq(|posts|, i requires 0 <= i < |posts| => Card(posts[i]))
  }

  /** A heading followed by the group's cards, or nothing for no posts. */
  function Group(c: Category, spaced: bool, posts: seq<Post>): seq<Block>
  {
    if posts == [] then [] else [Heading(c, spaced)] + Cards(posts)
  }

  /** The grid `PostList` renders for `posts`. */
  function Render(posts: seq<Post>): (r: seq<Block>)
    ensures |r| == |posts| + (if CategoryPosts(posts, Frontend) != [] then 1 else 0)
                           + (if CategoryPosts(posts, Backend) != [] then 1 else 0)
  {
    var frontendPosts := CategoryPosts(posts, Frontend);
    var backendPosts := CategoryPosts(posts, Backend);
    CategoriesPartition(posts);
    Group(Frontend, false, frontendPosts) + Group(Backend, |frontendPosts| > 0, backendPosts)
  }

  /** The posts of the cards among `blocks`, in order. */
  function CardPosts(blocks: seq<Block>): seq<Post>
  {
    if blocks == [] then []
    else (if blocks[0].Card? then [blocks[0].post] else []) + CardPosts(blocks[1..])
  }

  /** The headings among `blocks`, in order. */
  function HeadingBlocks(blocks: seq<Block>): seq<Block>
  {
    if blocks == [] then []
    else (if blocks[0].Heading? then [blocks[0]] else []) + HeadingBlocks(blocks[1..])
  }

  lemma {:induction false} ExtractAppend(a: seq<Block>, b: seq<Block>)
    ensures CardPosts(a + b) == CardPosts(a) + CardPosts(b)
    ensures HeadingBlocks(a + b) == HeadingBlocks(a) + HeadingBlocks(b)
    decreases |a|
  {
    if a == [] {
      assert a + b == b;
    } else {
      var ab := a + b;
      assert ab[0] == a[0];
      assert ab[1..] == a[1..] + b;
      ExtractAppend(a[1..], b);
      var c := if a[0].Card? then [a[0].post] else [];
      assert CardPosts(ab) == c + (CardPosts(a[1..]) + CardPosts(b));
      assert c + (CardPosts(a[1..]) + CardPosts(b)) == (c + CardPosts(a[1..])) + CardPosts(b);
      var h := if a[0].Heading? then [a[0]] else [];
      assert HeadingBlocks(ab) == h + (HeadingBlocks(a[1..]) + HeadingBlocks(b));
      assert h + (HeadingBlocks(a[1..]) + HeadingBlocks(b)) == (h + HeadingBlocks(a[1..])) + HeadingBlocks(b);
    }
  }

  /** A run of cards holds no heading, and its card posts are the posts. */
  lemma {:induction false} CardsExtract(posts: seq<Post>)
    ensures CardPosts(Cards(posts)) == posts
    ensures HeadingBlocks(Cards(posts)) == []
    decreases |posts|
  {
    if posts != [] {
      assert Cards(posts) == [Card(posts[0])] + Cards(posts[1..]);
      ExtractAppend([Card(posts[0])], Cards(posts[1..]));
      CardsExtract(posts[1..]);
      assert CardPosts([Card(posts[0])]) == [posts[0]];
      assert HeadingBlocks([Card(posts[0])]) == [];
    }
  }

  /** A group's cards are its posts, and it has one heading when non-empty. */
  lemma GroupExtract(c: Category, spaced: bool, posts: seq<Post>)
    ensures CardPosts(Group(c, spaced, posts)) == posts
    ensures HeadingBlocks(Group(c, spaced, posts)) == if posts == [] then [] else [Heading(c, spaced)]
  {
    if posts != [] {
      ExtractAppend([Heading(c, spaced)], Cards(posts));
      CardsExtract(posts);
      assert CardPosts([Heading(c, spaced)]) == [];
      assert HeadingBlocks([Heading(c, spaced)]) == [Heading(c, spaced)];
    }
  }

  /** The cards are the Frontend posts in input order, then the Backend
      posts in input order; together they are exactly the input posts, each
      as often as it occurs, so their number is |frontend| + |backend|. */
  lemma RenderedCards(posts: seq<Post>)
    ensures CardPosts(Render(posts)) == CategoryPosts(posts, Frontend) + CategoryPosts(posts, Backend)
    ensures multiset(CardPosts(Render(posts))) == multiset(posts)
    ensures |CardPosts(Render(posts))| == |posts|
  {
    var frontendPosts := CategoryPosts(posts, Frontend);
    var backendPosts := CategoryPosts(posts, Backend);
    ExtractAppend(Group(Frontend, false, frontendPosts), Group(Backend, |frontendPosts| > 0, backendPosts));
    GroupExtract(Frontend, false, frontendPosts);
    GroupExtract(Backend, |frontendPosts| > 0, backendPosts);
    CategoriesPartition(posts);
  }

  /** The headings: Frontend's when its group is non-empty, then Backend's
      when its group is non-empty, spaced exactly when Frontend's precedes it. */
  lemma RenderedHeadings(posts: seq<Post>)
    ensures var frontendPosts, backendPosts := CategoryPosts(posts, Frontend), CategoryPosts(posts, Backend);
      HeadingBlocks(Render(posts))
      == (if frontendPosts != [] then [Heading(Frontend, false)] else [])
         + (if backendPosts != [] then [Heading(Backend, frontendPosts != [])] else [])
  {
    var frontendPosts := CategoryPosts(posts, Frontend);
    var backendPosts := CategoryPosts(posts, Backend);
    ExtractAppend(Group(Frontend, false, frontendPosts), Group(Backend, |frontendPosts| > 0, backendPosts));
    GroupExtract(Frontend, false, frontendPosts);
    GroupExtract(Backend, |frontendPosts| > 0, backendPosts);
  }

  /** Every Frontend block comes before every Backend block. */
  lemma FrontendBeforeBackend(posts: seq<Post>)
    ensures var r := Render(posts);
      forall i, j :: 0 <= i < j < |r| && BlockCategory(r[j]) == Frontend ==> BlockCategory(r[i]) == Frontend
  {
    var frontendPosts := CategoryPosts(posts, Frontend);
    var backendPosts := CategoryPosts(posts, Backend);
    var f := Group(Frontend, false, frontendPosts);
    var b := Group(Backend, |frontendPosts| > 0, backendPosts);
    assert forall i :: 0 <= i < |f| ==> BlockCategory(f[i]) == Frontend by {
      forall i | 0 <= i < |f| ensures BlockCategory(f[i]) == Frontend {
        if i > 0 { assert f[i] == Cards(frontendPosts)[i - 1]; }
      }
    }
    assert forall i :: 0 <= i < |b| ==> BlockCategory(b[i]) == Backend by {
      forall i | 0 <= i < |b| ensures BlockCategory(b[i]) == Backend {
        if i > 0 { assert b[i] == Cards(backendPosts)[i - 1]; }
      }
    }
    var r := f + b;
    forall i, j | 0 <= i < j < |r| && BlockCategory(r[j]) == Frontend ensures BlockCategory(r[i]) == Frontend {
      assert j < |f|;
      assert r[i] == f[i];
    }
  }
}
