/** The top-level view state of the blog (App.tsx): the main page or one
    post, the guarded transition to a post, and the key that names the
    rendered page. */
module App {
  import opened Blog

  /** `ViewState`: `{ type: 'main' }` or `{ type: 'post'; post }`. */
  datatype ViewState = MainView | PostView(post: Post)

  /** The transition of `handleSelectPost`: nothing happens when the post
      with that identifier is already shown, otherwise that post is shown. */
  function Select(view: ViewState, p: Post): (r: ViewState)
    ensures r.PostView? && r.post.id == p.id
    ensures view.PostView? && view.post.id == p.id ==> r == view
    ensures !(view.PostView? && view.post.id == p.id) ==> r == PostView(p)
  {
    if view.PostView? && view.post.id == p.id then view else PostView(p)
  }

  /** Selecting the same post twice is selecting it once. */
  lemma SelectIdempotent(view: ViewState, p: Post)
    ensures Select(Select(view, p), p) == Select(view, p)
  {
  }

  function DigitChar(d: nat): (c: char)
    requires d < 10
    ensures '0' <= c <= '9'
  {
    ('0' as int + d) as char
  }

  /** The decimal digits of `n`, without leading zeros. */
  function NatToString(n: nat): (s: string)
    ensures |s| >= 1
    ensures forall i :: 0 <= i < |s| ==> '0' <= s[i] <= '9'
    ensures |s| == 1 <==> n < 10
    decreases n
  {
    if n < 10 then [DigitChar(n)] else NatToString(n / 10) + [DigitChar(n % 10)]
  }

  /** JavaScript's decimal rendering of an integer in a template string. */
  function IntToString(n: int): (s: string)
    ensures |s| >= 1
    ensures s[0] == '-' <==> n < 0
  {
    if n < 0 then "-" + NatToString(-n) else NatToString(n)
  }

  /** Different numbers have different decimal strings. */
  lemma {:induction false} NatToStringInjective(a: nat, b: nat)
    requires NatToString(a) == NatToString(b)
    ensures a == b
    decreases a
  {
    var sa, sb := NatToString(a), NatToString(b);
    if a >= 10 && b >= 10 {
      assert sa[..|sa| - 1] == NatToString(a / 10);
      assert sb[..|sb| - 1] == NatToString(b / 10);
      NatToStringInjective(a / 10, b / 10);
      assert sa[|sa| - 1] == DigitChar(a % 10) && sb[|sb| - 1] == DigitChar(b % 10);
    }
  }

  lemma IntToStringInjective(a: int, b: int)
    requires IntToString(a) == IntToString(b)
    ensures a == b
  {
    if a < 0 {
      assert IntToString(a)[1..] == NatToString(-a) && IntToString(b)[1..] == NatToString(-b);
      NatToStringInjective(-a, -b);
    } else {
      NatToStringInjective(a, b);
    }
  }

  /** The `key` given to the page in `renderPage`. */
  function PageKey(view: ViewState): (key: string)
    ensures view.MainView? <==> key == "main"
  {
    match view
    case MainView => "main"
    case PostView(p) => "post-" + IntToString(p.id)
  }

  /** Two views have the same page key exactly when both are the main page or
      both show posts with the same identifier. */
  lemma PageKeyIdentifiesView(v1: ViewState, v2: ViewState)
    ensures PageKey(v1) == PageKey(v2)
        <==> (v1.MainView? && v2.MainView?) || (v1.PostView? && v2.PostView? && v1.post.id == v2.post.id)
  {
    if v1.PostView? && v2.PostView? && PageKey(v1) == PageKey(v2) {
      var k1, k2 := PageKey(v1), PageKey(v2);
      assert k1[5..] == IntToString(v1.post.id) && k2[5..] == IntToString(v2.post.id);
      IntToStringInjective(v1.post.id, v2.post.id);
    }
  }

  /** After a selection the page key names the selected post. */
  lemma SelectedPageKey(view: ViewState, p: Post)
    ensures PageKey(Select(view, p)) == "post-" + IntToString(p.id)
  {
  }

  /** The `App` component's state: the single `view` field. */
  class AppState {
    var view: ViewState

    /** The application starts on the main page. */
    constructor ()
      ensures view == MainView
      ensures Key() == "main"
    {
      view := MainView;
    }

    /** The key of the page currently rendered. */
    function Key(): (key: string)
      reads this
      ensures key == "main" <==> view.MainView?
      ensures view.PostView? ==> key == "post-" + IntToString(view.post.id)
    {
      PageKey(view)
    }

    /** `handleSelectPost`: returns early when the post with that identifier
        is already shown, otherwise shows `p`. */
    method HandleSelectPost(p: Post)
      modifies this
      ensures view == Select(old(view), p)
      ensures old(view).PostView? && old(view).post.id == p.id ==> view == old(view)
      ensures view.PostView? && view.post.id == p.id
      ensures Key() == "post-" + IntToString(p.id)
    {
      if view.PostView? && view.post.id == p.id {
        return;
      }
      view := PostView(p);
    }
  }
}
