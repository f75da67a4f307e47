/** The post record and its category, as the blog components read them. */
module Blog {
  import opened Seqs

  /** The categories of the `BlogCategory` enumeration. Its declaration is
      not part of this model; the components only ever name these two
      members, and the model takes them to be the only ones. */
  datatype Category = Frontend | Backend

  /** The string value a category compares equal to in the category filter.
      The enumeration's declaration is not part of this model; its member
      names are used here as its string values. */
  function Label(c: Category): (s: string)
    ensures s != "All" && s != ""
    ensures c == Frontend <==> s[0] == 'F'
  {
    match c
    case Frontend => "Frontend"
    case Backend => "Backend"
  }

  /** The fields of a `BlogPost` that the modelled logic reads. Subtitle,
      date, banner image and body are only displayed and are left out. */
  datatype Post = Post(id: int, title: string, author: string, tags: seq<string>, category: Category)

  /** The identifiers of the posts in `s`. */
  function Ids(s: seq<Post>): (r: set<int>)
    ensures forall p :: p in s ==> p.id in r
    ensures forall i :: i in r ==> exists p :: p in s && p.id == i
  {
    set p | p in s :: p.id
  }

  /** No two positions of the catalog hold posts with the same identifier. */
  predicate UniqueIds(s: seq<Post>)
  {
    forall i, j :: 0 <= i < j < |s| ==> s[i].id != s[j].id
  }

  /** The test `p.category === c`. */
  function InCategory(c: Category): Post -> bool
  {
    (p: Post) => p.category == c
  }

  /** `posts.filter(p => p.category === c)`. */
  function CategoryPosts(posts: seq<Post>, c: Category): (r: seq<Post>)
    ensures forall p :: p in r <==> p in posts && p.category == c
    ensures IsSubsequence(r, posts)
  {
    FilterMembers(posts, InCategory(c));
    FilterIsSubsequence(posts, InCategory(c));
    Filter(posts, InCategory(c))
  }

  /** A subsequence of a catalog with unique identifiers has unique identifiers. */
  lemma {:induction false} SubsequenceUniqueIds(a: seq<Post>, b: seq<Post>)
    requires IsSubsequence(a, b) && UniqueIds(b)
    ensures UniqueIds(a)
    decreases |b|
  {
    if a != [] {
      if a[0] == b[0] && IsSubsequence(a[1..], b[1..]) {
        SubsequenceUniqueIds(a[1..], b[1..]);
        SubsequenceMembers(a[1..], b[1..]);
        forall i, j | 0 <= i < j < |a| ensures a[i].id != a[j].id {
          if i > 0 {
            assert a[i] == a[1..][i - 1] && a[j] == a[1..][j - 1];
          } else {
            assert a[j] in b[1..];
            var k :| 0 <= k < |b[1..]| && b[1..][k] == a[j];
            assert b[k + 1] == a[j];
          }
        }
      } else {
        SubsequenceUniqueIds(a, b[1..]);
      }
    }
  }

  /** In a catalog with unique identifiers, a post is determined by its identifier. */
  lemma SameIdSamePost(s: seq<Post>, p: Post, q: Post)
    requires UniqueIds(s) && p in s && q in s && p.id == q.id
    ensures p == q
  {
    var i :| 0 <= i < |s| && s[i] == p;
    var j :| 0 <= j < |s| && s[j] == q;
    assert !(i < j) && !(j < i);
  }

  /** Every post is either a Frontend or a Backend post: the two category
      lists together hold each post of `posts` exactly as often as `posts`. */
  lemma CategoriesPartition(posts: seq<Post>)
    ensures multiset(CategoryPosts(posts, Frontend)) + multiset(CategoryPosts(posts, Backend)) == multiset(posts)
    ensures |CategoryPosts(posts, Frontend)| + |CategoryPosts(posts, Backend)| == |posts|
  {
    FilterPartition(posts, InCategory(Frontend), InCategory(Backend));
  }
}
