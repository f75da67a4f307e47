# Blog page selection rules in Dafny

This project models the selection logic of a small React blog front end: the
posts it suggests under an article, the search and category filter of the
landing page, the grouping of a post list into a Frontend and a Backend
section, and the two-variant view state that switches between the landing
page and a post page. The catalog of posts is an arbitrary `seq<Post>`;
everything else is presentational and is not modelled.

Modules (one file each):

- `Seqs` (`seqs.dfy`): `Filter` and `Take`, the models of JavaScript's
  `Array.prototype.filter` and `slice(0, n)`, with the facts the rest uses
  (membership, order preservation as `IsSubsequence`, partition).
- `Blog` (`blog.dfy`): the `Post` record, the `Category` enumeration, the
  per-category lists and identifier helpers.
- `Text` (`text.dfy`): ASCII lower-casing and substring search, the models of
  `toLowerCase` and `includes`.
- `Suggestions` (`suggestions.dfy`): components/Suggestions.tsx. The
  component body is the method `Suggest`, which copies, pads and cuts the
  author list step by step as the source does; it is proved equal to closed
  forms (`AuthorSuggestions`, `OtherSuggestions`) about which the lemmas
  speak.
- `MainPage` (`main_page.dfy`): components/MainPage.tsx, the filter, the
  three-way body choice and a class holding the page's three state fields.
- `PostList` (`post_list.dfy`): components/main/PostList.tsx and its older
  copy components/PostList.tsx, which contain the same logic; the rendered
  grid is a sequence of heading and card blocks.
- `App` (`app.dfy`): App.tsx, the `ViewState` union, a class whose `view`
  field `HandleSelectPost` updates, and the page key.

Rows for the post list cite either copy of the component, whichever holds
the lines in question; both copies have the same logic line for line.

## Model

| member | source | states |
|---|---|---|
| `Blog.Label` | components/MainPage.tsx:31 | a category's value is never the pseudo-category `'All'`, and the two values differ |
| `Blog.CategoryPosts` | components/MainPage.tsx:38-39 | the list holds exactly the posts of that category, in catalog order |
| `Blog.CategoriesPartition` | components/PostList.tsx:12-13 | the Frontend and Backend lists together hold every input post exactly as often as the input, so their lengths add up to the input's |
| `Suggestions.SameAuthorPosts` | components/Suggestions.tsx:13 | exactly the catalog posts by the target's author whose id differs from the target's, in catalog order |
| `Suggestions.OtherPosts` | components/Suggestions.tsx:14 | exactly the catalog posts by another author whose id differs from the target's, in catalog order |
| `Suggestions.Unused` | components/Suggestions.tsx:24 | exactly the posts whose id is not among the used ids, in order |
| `Suggestions.AuthorSuggestions` | components/Suggestions.tsx:16-21 | at most 3 posts, each from the catalog and none with the target's id |
| `Suggestions.OtherSuggestions` | components/Suggestions.tsx:23-24 | at most 3 posts, each by another author, none with the target's id and none with an id used by the author suggestions |
| `Suggestions.PaddingCount` | components/Suggestions.tsx:17-19 | the number of padding posts never exceeds the other-author list and is 0 when there are 3 or more same-author posts |
| `Suggestions.Suggest` | components/Suggestions.tsx:13-24 | copying the same-author list, pushing the needed other-author posts, cutting to 3 and de-duplicating by id yields exactly the closed-form author and other suggestions |
| `Suggestions.AuthorSuggestionsShape` | components/Suggestions.tsx:16-21 | author suggestions are the first 3 same-author posts followed by the first `PaddingCount` other-author posts, and their number is min(3, same + others) |
| `Suggestions.ManySameAuthorPosts` | components/Suggestions.tsx:13-21 | with 3 or more same-author posts the author suggestions are the first 3 of them in catalog order |
| `Suggestions.FewSameAuthorPosts` | components/Suggestions.tsx:16-21 | with fewer than 3 same-author posts the author suggestions are all of them followed by the first 3 - k other-author posts in order |
| `Suggestions.OtherSuggestionsInOrder` | components/Suggestions.tsx:24 | the other suggestions are an order-preserving subsequence of the other-author list |
| `Suggestions.SuggestionsIdDisjoint` | components/Suggestions.tsx:23-24 | no id appears in both suggestion lists |
| `Suggestions.PaddingIsUsed` | components/Suggestions.tsx:19-24 | every other-author post used as padding has its id among the author suggestions' ids |
| `Suggestions.FollowersAreUnused` | components/Suggestions.tsx:23-24 | with unique ids, no other-author post after the padding has an id among the author suggestions' ids |
| `Suggestions.OtherSuggestionsFollowPadding` | components/Suggestions.tsx:17-24 | with unique ids, the other suggestions are the (up to) 3 other-author posts that follow the ones used as padding |
| `Suggestions.NoPaddingOtherSuggestions` | components/Suggestions.tsx:16-24 | with unique ids and 3 or more same-author posts, the other suggestions are the first 3 other-author posts |
| `Suggestions.ExampleLists` | components/Suggestions.tsx:13-14 | for catalog [1:A, 2:A, 3:B] and target 1 the same-author list is [2], the other-author list is [3] and the author suggestions are [2, 3] |
| `Suggestions.ThreePostExample` | components/Suggestions.tsx:13-24 | for catalog [1:A, 2:A, 3:B] and target 1 the author suggestions are [2, 3] and the other suggestions are empty |
| `Suggestions.Sections` | components/Suggestions.tsx:26-54 | a section is rendered exactly when its list is non-empty and no other section is, so there are as many sections as non-empty lists; each has at most 3 cards, the author section first |
| `Text.LowerChar` | components/MainPage.tsx:32-33 | an upper-case ASCII letter becomes its lower-case letter, every other character is unchanged, and the result is never upper-case |
| `Text.ToLower` | components/MainPage.tsx:32-33 | the result has the input's length and lower-cases it character by character |
| `Text.ToLowerIdempotent` | components/MainPage.tsx:32-33 | lower-casing a lower-cased string changes nothing |
| `Text.Includes` | components/MainPage.tsx:32-33 | true exactly when the needle occurs at some position of the haystack |
| `Text.IncludesEmpty` | components/MainPage.tsx:32-33 | the empty string is a substring of every string |
| `MainPage.MatchesCategory` | components/MainPage.tsx:31 | `'All'` matches every post, a category's value matches exactly the posts of that category, and any other selection matches nothing |
| `MainPage.MatchesSearch` | components/MainPage.tsx:32-33 | the empty term matches every post, and a matching term is no longer than the title or than some tag |
| `MainPage.FilteredPosts` | components/MainPage.tsx:29-36 | a post is kept iff it is in the catalog, the selection is `'All'` or its category, and the search test holds; the result keeps catalog order |
| `MainPage.ShownMeansOccurs` | components/MainPage.tsx:31-34 | a post is shown iff the category test holds and the lower-cased term occurs in the lower-cased title or in some lower-cased tag |
| `MainPage.InitialFilterShowsAll` | components/MainPage.tsx:18-34 | with the initial filter (empty term, `'All'`) the result is the whole catalog |
| `MainPage.SearchIgnoresCase` | components/MainPage.tsx:32-33 | two terms with the same lower-case form give the same result |
| `MainPage.SearchLowerCased` | components/MainPage.tsx:32-33 | searching for the lower-cased term gives the same result as the term |
| `MainPage.SelectedCategoryFilter` | components/MainPage.tsx:31 | selecting a category is searching within that category's posts |
| `MainPage.UnknownCategoryShowsNothing` | components/MainPage.tsx:31 | a selection that is neither `'All'` nor a category value keeps no post |
| `MainPage.RenderBody` | components/MainPage.tsx:41-49 | the skeleton exactly while loading, with counts adding up to the catalog size; a listing only of a non-empty, order-preserving result; the empty state exactly when loading is over and no post passes the filter |
| `MainPage.SkeletonCounts` | components/MainPage.tsx:38-44 | while loading the skeleton's counts are the two category list lengths, whatever the filter |
| `MainPage.ListingIsFiltered` | components/MainPage.tsx:45-46 | after loading, a non-empty filter result is what the list shows |
| `MainPage.MainPageState.constructor` | components/MainPage.tsx:18-20 | initial state: empty search term, `'All'`, loading; the body is the skeleton and the call-to-action is hidden |
| `MainPage.MainPageState.ShowsCallToAction` | components/MainPage.tsx:71 | the call-to-action is shown exactly when the body is not the loading skeleton |
| `MainPage.MainPageState.SetSearchTerm` | components/MainPage.tsx:64 | only the search term changes |
| `MainPage.MainPageState.SetSelectedCategory` | components/MainPage.tsx:66 | only the selected category changes |
| `MainPage.MainPageState.FinishLoading` | components/MainPage.tsx:22-27 | loading ends, the skeleton is gone and the call-to-action (line 71) shows; the filter is unchanged |
| `PostList.Render` | components/main/PostList.tsx:14-35 | the grid has one block per input post plus one heading per non-empty category group |
| `PostList.GroupExtract` | components/PostList.tsx:17-32 | a group renders its posts as cards in order, with one heading when non-empty and nothing when empty |
| `PostList.RenderedCards` | components/main/PostList.tsx:14-34 | the cards are the Frontend posts in input order, then the Backend posts in input order; together they are the input posts, each once per occurrence, so there are \|frontend\| + \|backend\| = \|posts\| cards |
| `PostList.RenderedHeadings` | components/main/PostList.tsx:19-29 | the Frontend heading appears iff that group is non-empty, then the Backend heading iff that group is non-empty, with top spacing exactly when the Frontend group is non-empty |
| `PostList.FrontendBeforeBackend` | components/main/PostList.tsx:19-34 | every Frontend block of the grid precedes every Backend block |
| `App.Select` | App.tsx:51-55 | the result shows a post with the selected id; selecting the id already shown changes nothing, anything else shows the selected post |
| `App.SelectIdempotent` | App.tsx:53 | selecting the same post twice is selecting it once |
| `App.NatToString` | App.tsx:63 | a non-empty run of decimal digits, one digit exactly for numbers below 10 |
| `App.IntToString` | App.tsx:63 | non-empty, starting with `-` exactly for negative numbers |
| `App.NatToStringInjective` | App.tsx:63 | different naturals have different decimal strings |
| `App.IntToStringInjective` | App.tsx:63 | different integers have different decimal strings |
| `App.PageKey` | App.tsx:61-77 | the key is `"main"` exactly for the main view |
| `App.PageKeyIdentifiesView` | App.tsx:61-77 | two views share a key iff both are the main view or both show posts with the same id |
| `App.SelectedPageKey` | App.tsx:51-63 | after a selection the key is `"post-"` followed by the selected id |
| `App.AppState.constructor` | App.tsx:44 | the application starts on the main view, key `"main"` |
| `App.AppState.Key` | App.tsx:61-77 | the key of the current page is `"main"` exactly on the main view, and `"post-"` followed by the post's id on a post view |
| `App.AppState.HandleSelectPost` | App.tsx:51-55 | the new view is the transition `Select` of the old one: unchanged when that id is already shown, otherwise the post; either way a post view with the selected id and its key |

## Left out

- Page-transition animation (App.tsx:14-37, 79-97): a foreign animation library with fractional-second timing.
- Scroll-to-top on every view change (App.tsx:46-49): a browser side effect.
- Returning to the main view: App.tsx has no such transition, so none is modelled; the view can only move to a post.
- The loading timer (components/MainPage.tsx:22-27): its 1500 ms delay and cancellation on unmount are not modelled; `FinishLoading` is what its callback does.
- `Text.ToLower`: models `toLowerCase` on ASCII letters only, not full Unicode case mapping.
- `App.IntToString`: models JavaScript's number-to-string conversion for safe integers only; ids beyond 2^53 (`Number.MAX_SAFE_INTEGER`), where JavaScript prints the shortest digits that round-trip to the double (or exponent notation from 10^21), are not modelled, and non-integer ids are not modelled either.
- `Blog.Category`: the declaration of the `BlogCategory` enumeration is not part of this model; the components only name its `FRONTEND` and `BACKEND` members, and the model assumes these are its only members. `Blog.CategoriesPartition`, `PostList.RenderedCards` (every post gets a card), `PostList.Render` (its length) and `MainPage.RenderBody` (skeleton counts adding up to the catalog size) hold only under that assumption; with a third member the post list would omit that member's posts.
- `Blog.Label`: the string values of the `BlogCategory` enumeration are not part of this model; the member names are used as the values. The proofs rely only on the two values being different from each other and from `'All'`.
- The `BlogPost` type is not part of this model either; `Post` holds the fields the logic reads (id, title, author, tags, category). Subtitle, date, banner image and body are display-only.
- The catalog constant `BLOG_POSTS` is not part of this model; every operation takes the catalog as a parameter.
- The category dropdown and search box widgets (components/FilterControls.tsx): only their effect, the two setters, is modelled.
- The clipboard button, banner and content lookups, skeletons, cards, headers, navigation bar, logo, call-to-action and empty-state components: layout and styling only.
