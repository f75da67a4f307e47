/** The "More from <author>" and "Suggested for you" lists shown under a post
    (components/Suggestions.tsx). */
module Suggestions {
  import opened Seqs
  import opened Blog

  /** The number of cards each suggestion section shows at most. */
  const SectionSize: nat := 3

  /** The test of `sameAuthorPosts`: same author, not the target itself. */
  function BySameAuthor(target: Post): Post -> bool
  {
    (p: Post) => p.author == target.author && p.id != target.id
  }

  /** The test of `otherPostsForSuggestions`: another author, not the target. */
  function ByOtherAuthor(target: Post): Post -> bool
  {
    (p: Post) => p.author != target.author && p.id != target.id
  }

  /** The test of the de-duplicating filter: identifier not yet used. */
  function NotUsed(used: set<int>): Post -> bool
  {
    (p: Post) => p.id !in used
  }

  /** `sameAuthorPosts`: the catalog's other posts by the target's author. */
  function SameAuthorPosts(target: Post, all: seq<Post>): (r: seq<Post>)
    ensures forall p :: p in r <==> p in all && p.author == target.author && p.id != target.id
    ensures IsSubsequence(r, all)
  {
    FilterMembers(all, BySameAuthor(target));
    FilterIsSubsequence(all, BySameAuthor(target));
    Filter(all, BySameAuthor(target))
  }

  /** `otherPostsForSuggestions`: the catalog's posts by other authors,
      without any post carrying the target's identifier. */
  function OtherPosts(target: Post, all: seq<Post>): (r: seq<Post>)
    ensures forall p :: p in r <==> p in all && p.author != target.author && p.id != target.id
    ensures IsSubsequence(r, all)
  {
    FilterMembers(all, ByOtherAuthor(target));
    FilterIsSubsequence(all, ByOtherAuthor(target));
    Filter(all, ByOtherAuthor(target))
  }

  /** The posts of `s` whose identifier is not in `used`. */
  function Unused(s: seq<Post>, used: set<int>): (r: seq<Post>)
    ensures forall p :: p in r <==> p in s && p.id !in used
    ensures IsSubsequence(r, s)
  {
    FilterMembers(s, NotUsed(used));
    FilterIsSubsequence(s, NotUsed(used));
    Filter(s, NotUsed(used))
  }

  /** The author suggestions in closed form: the first three posts of the
      same-author list continued by the other-author list. */
  function AuthorSuggestions(target: Post, all: seq<Post>): (r: seq<Post>)
    ensures |r| <= SectionSize
    ensures forall p :: p in r ==> p in all && p.id != target.id
  {
    var same, others := SameAuthorPosts(target, all), OtherPosts(target, all);
    var r := Take(same + others, SectionSize);
    assert forall p :: p in r ==> p in same + others;
    r
  }

  /** The other suggestions: the first three other-author posts whose
      identifier is not among the author suggestions. */
  function OtherSuggestions(target: Post, all: seq<Post>): (r: seq<Post>)
    ensures |r| <= SectionSize
    ensures forall p :: p in r ==> p in all && p.author != target.author && p.id != target.id
    ensures forall p :: p in r ==> p.id !in Ids(AuthorSuggestions(target, all))
  {
    var r := Take(Unused(OtherPosts(target, all), Ids(AuthorSuggestions(target, all))), SectionSize);
    assert forall p :: p in r ==> p in Unused(OtherPosts(target, all), Ids(AuthorSuggestions(target, all)));
    r
  }

  /** How many other-author posts pad the author suggestions. */
  function PaddingCount(target: Post, all: seq<Post>): (n: nat)
    ensures n <= |OtherPosts(target, all)|
    ensures |SameAuthorPosts(target, all)| >= SectionSize ==> n == 0
  {
    var k := |SameAuthorPosts(target, all)|;
    if k >= SectionSize then 0 else Min(SectionSize - k, |OtherPosts(target, all)|)
  }

  /** The component's computation, step by step: copy the same-author list,
      push the needed number of other-author posts when it is short, cut it
      to three, then pick up to three other-author posts whose identifier
      was not used. */
  method Suggest(target: Post, all: seq<Post>) returns (authorSuggestions: seq<Post>, otherSuggestions: seq<Post>)
    ensures authorSuggestions == AuthorSuggestions(target, all)
    ensures otherSuggestions == OtherSuggestions(target, all)
  {
    var sameAuthorPosts := SameAuthorPosts(target, all);
    var otherPostsForSuggestions := OtherPosts(target, all);
    authorSuggestions := sameAuthorPosts;
    if |authorSuggestions| < 3 {
      var needed := 3 - |authorSuggestions|;
      authorSuggestions := authorSuggestions + Take(otherPostsForSuggestions, needed);
    }
    authorSuggestions := Take(authorSuggestions, 3);
    assert authorSuggestions == Take(sameAuthorPosts + otherPostsForSuggestions, 3);
    var authorSuggestionIds := Ids(authorSuggestions);
    otherSuggestions := Take(Unused(otherPostsForSuggestions, authorSuggestionIds), 3);
  }

  /** The author suggestions are the first three same-author posts, then
      exactly `PaddingCount` other-author posts taken from the front of that
      list; their number is min(3, |same| + |others|). */
  lemma AuthorSuggestionsShape(target: Post, all: seq<Post>)
    ensures var same, others := SameAuthorPosts(target, all), OtherPosts(target, all);
      AuthorSuggestions(target, all) == Take(same, SectionSize) + others[..PaddingCount(target, all)]
      && |AuthorSuggestions(target, all)| == Min(SectionSize, |same| + |others|)
  {
    var same, others := SameAuthorPosts(target, all), OtherPosts(target, all);
    var n := PaddingCount(target, all);
    if |same| >= SectionSize {
      assert (same + others)[..SectionSize] == same[..SectionSize];
    } else {
      assert (same + others)[..|same| + n] == same + others[..n];
    }
  }

  /** With three or more same-author posts there is no padding. */
  lemma ManySameAuthorPosts(target: Post, all: seq<Post>)
    requires |SameAuthorPosts(target, all)| >= SectionSize
    ensures AuthorSuggestions(target, all) == SameAuthorPosts(target, all)[..SectionSize]
  {
    AuthorSuggestionsShape(target, all);
  }

  /** With fewer than three same-author posts, all of them are suggested,
      followed by the first other-author posts up to three in all. */
  lemma FewSameAuthorPosts(target: Post, all: seq<Post>)
    requires |SameAuthorPosts(target, all)| < SectionSize
    ensures var same := SameAuthorPosts(target, all);
      AuthorSuggestions(target, all) == same + Take(OtherPosts(target, all), SectionSize - |same|)
  {
    AuthorSuggestionsShape(target, all);
  }

  /** The other suggestions keep the catalog order of the other-author list. */
  lemma {:induction false} OtherSuggestionsInOrder(target: Post, all: seq<Post>)
    ensures IsSubsequence(OtherSuggestions(target, all), OtherPosts(target, all))
  {
    var unused := Unused(OtherPosts(target, all), Ids(AuthorSuggestions(target, all)));
    TakeIsSubsequence(unused, SectionSize);
    SubsequenceTransitive(OtherSuggestions(target, all), unused, OtherPosts(target, all));
  }

  /** The two lists never show a post with the same identifier. */
  lemma SuggestionsIdDisjoint(target: Post, all: seq<Post>)
    ensures Ids(AuthorSuggestions(target, all)) !! Ids(OtherSuggestions(target, all))
  {
    var a, o := AuthorSuggestions(target, all), OtherSuggestions(target, all);
    forall i | i in Ids(o) ensures i !in Ids(a) {
      var p :| p in o && p.id == i;
    }
  }

  /** Every other-author post used as padding is excluded from the other
      suggestions. */
  lemma PaddingIsUsed(target: Post, all: seq<Post>)
    ensures var others, n := OtherPosts(target, all), PaddingCount(target, all);
      forall i :: 0 <= i < n ==> others[i].id in Ids(AuthorSuggestions(target, all))
  {
    var same, others := SameAuthorPosts(target, all), OtherPosts(target, all);
    var n := PaddingCount(target, all);
    AuthorSuggestionsShape(target, all);
    forall i | 0 <= i < n ensures others[i] in AuthorSuggestions(target, all) {
      assert others[i] == others[..n][i];
    }
  }

  /** With unique identifiers, no other-author post after the padding shares
      an identifier with an author suggestion. */
  lemma FollowersAreUnused(target: Post, all: seq<Post>)
    requires UniqueIds(all)
    ensures var others, n := OtherPosts(target, all), PaddingCount(target, all);
      forall i :: n <= i < |others| ==> others[i].id !in Ids(AuthorSuggestions(target, all))
  {
    var same, others := SameAuthorPosts(target, all), OtherPosts(target, all);
    var n := PaddingCount(target, all);
    var author := AuthorSuggestions(target, all);
    AuthorSuggestionsShape(target, all);
    SubsequenceUniqueIds(others, all);
    forall i | n <= i < |others| ensures others[i].id !in Ids(author) {
      var x := others[i];
      if x.id in Ids(author) {
        var q :| q in author && q.id == x.id;
        if q in Take(same, SectionSize) {
          SameIdSamePost(all, q, x);
        }
        assert false;
      }
    }
  }

  /** In a catalog with unique identifiers, the other suggestions are the
      three other-author posts that follow the ones used as padding. */
  lemma OtherSuggestionsFollowPadding(target: Post, all: seq<Post>)
    requires UniqueIds(all)
    ensures var others := OtherPosts(target, all);
      OtherSuggestions(target, all) == Take(others[PaddingCount(target, all)..], SectionSize)
  {
    var others := OtherPosts(target, all);
    var n := PaddingCount(target, all);
    var used := Ids(AuthorSuggestions(target, all));
    var keep := NotUsed(used);
    assert OtherSuggestions(target, all) == Take(Filter(others, keep), SectionSize);
    PaddingIsUsed(target, all);
    FollowersAreUnused(target, all);
    FilterDropsPrefix(others, n, keep);
  }

  /** With unique identifiers and at least three same-author posts, the other
      suggestions are simply the first three other-author posts. */
  lemma NoPaddingOtherSuggestions(target: Post, all: seq<Post>)
    requires UniqueIds(all) && |SameAuthorPosts(target, all)| >= SectionSize
    ensures OtherSuggestions(target, all) == Take(OtherPosts(target, all), SectionSize)
  {
    OtherSuggestionsFollowPadding(target, all);
  }

  /** Catalog [1 by A, 2 by A, 3 by B] with target 1: post 2 is suggested and
      padded with post 3, which then cannot be suggested again. */
  lemma ThreePostExample()
    ensures var p1, p2, p3 := Post(1, "T", "A", [], Frontend), Post(2, "T", "A", [], Backend), Post(3, "T", "B", [], Frontend);
      AuthorSuggestions(p1, [p1, p2, p3]) == [p2, p3] && OtherSuggestions(p1, [p1, p2, p3]) == []
  {
    var p1, p2, p3 := Post(1, "T", "A", [], Frontend), Post(2, "T", "A", [], Backend), Post(3, "T", "B", [], Frontend);
    var all := [p1, p2, p3];
    ExampleLists(p1, p2, p3);
    var used := Ids(AuthorSuggestions(p1, all));
    assert 3 in used;
    assert Filter([p3], NotUsed(used)) == [];
    assert OtherSuggestions(p1, all) == Take(Filter([p3], NotUsed(used)), SectionSize);
  }

  lemma ExampleLists(p1: Post, p2: Post, p3: Post)
    requires p1 == Post(1, "T", "A", [], Frontend) && p2 == Post(2, "T", "A", [], Backend) && p3 == Post(3, "T", "B", [], Frontend)
    ensures SameAuthorPosts(p1, [p1, p2, p3]) == [p2] && OtherPosts(p1, [p1, p2, p3]) == [p3]
    ensures AuthorSuggestions(p1, [p1, p2, p3]) == [p2, p3]
  {
    var all := [p1, p2, p3];
    assert all[1..] == [p2, p3] && all[1..][1..] == [p3] && all[1..][1..][1..] == [];
    var same, other := BySameAuthor(p1), ByOtherAuthor(p1);
    assert Filter([p3], same) == [] && Filter([p3], other) == [p3];
    assert Filter([p2, p3], same) == [p2] && Filter([p2, p3], other) == [p3];
    assert [p2] + [p3] == [p2, p3];
  }

  /** A section of the suggestions area. */
  datatype Section = MoreFromAuthor(author: string, posts: seq<Post>) | SuggestedForYou(posts: seq<Post>)

  /** The sections the component renders: each list only when it is non-empty,
      the author's first. */
  function Sections(target: Post, all: seq<Post>): (r: seq<Section>)
    ensures forall s :: s in r ==> s.posts != [] && |s.posts| <= SectionSize
    ensures MoreFromAuthor(target.author, AuthorSuggestions(target, all)) in r <==> AuthorSuggestions(target, all) != []
    ensures SuggestedForYou(OtherSuggestions(target, all)) in r <==> OtherSuggestions(target, all) != []
    ensures |r| == (if AuthorSuggestions(target, all) != [] then 1 else 0)
                 + (if OtherSuggestions(target, all) != [] then 1 else 0)
    ensures |r| == 2 ==> r[0].MoreFromAuthor? && r[1].SuggestedForYou?
  {
    var a, o := AuthorSuggestions(target, all), OtherSuggestions(target, all);
    (if |a| > 0 then [MoreFromAuthor(target.author, a)] else [])
    + (if |o| > 0 then [SuggestedForYou(o)] else [])
  }
}
