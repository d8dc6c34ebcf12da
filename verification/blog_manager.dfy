/** The in-memory blog store: three insertion-ordered maps (posts, categories
    and tags) with create, update, delete, lookup and listing. Every
    transition is a function from the old store to a result; a failed
    transition returns only the error, so the caller's store is unchanged.
    Ids and clock readings are parameters. */
module BlogManager {
  import opened Wrappers
  import opened Text
  import opened Numbers
  import opened Sequences
  import opened Errors
  import opened BlogTypes
  import OrderedMap
  import NewestFirst

  type OMap<V> = OrderedMap.OMap<V>

  datatype Store = Store(posts: OMap<Post>, categories: OMap<Category>, tags: OMap<Tag>)

  datatype ListParams = ListParams(
    category: Option<string>,
    tag: Option<string>,
    status: Option<Status>,
    page: Option<int>,
    limit: Option<int>)

  datatype ListPage = ListPage(posts: seq<Post>, total: int, page: int, totalPages: int)

  const WordsPerMinute := 200
  const DefaultLimit := 10

  const PostNotFound := AppError("Post not found", NotFound, 404)
  const CategoryNotFound := AppError("Category not found", NotFound, 404)
  const TagNotFound := AppError("Tag not found", NotFound, 404)

  function NewStore(): (s: Store)
    ensures s.posts.entries == map[] && s.categories.entries == map[] && s.tags.entries == map[]
  {
    Store(OrderedMap.Empty(), OrderedMap.Empty(), OrderedMap.Empty())
  }

  // ---------------------------------------------------------------- slugs

  predicate IsSlugChar(c: char) {
    IsLowerAscii(c) || IsDigit(c) || c == '_' || c == '-'
  }

  /** The characters `[\w\s-]` that survive the first replacement. */
  predicate KeptInSlug(c: char) {
    IsWordChar(c) || IsSpace(c) || c == '-'
  }

  /** `.replace(/[^\w\s-]/g, '')` */
  function DropDisallowed(s: string): (r: string)
    ensures r == Filter(s, KeptInSlug)
    ensures forall i :: 0 <= i < |r| ==> KeptInSlug(r[i]) && r[i] in s
    ensures (forall i :: 0 <= i < |s| ==> KeptInSlug(s[i])) ==> r == s
    decreases |s|
  {
    if |s| == 0 then ""
    else (if KeptInSlug(s[0]) then [s[0]] else "") + DropDisallowed(s[1..])
  }

  /** `.replace(/\s+/g, '-')` */
  function DashSpaceRuns(s: string): (r: string)
    ensures forall i :: 0 <= i < |r| ==> !IsSpace(r[i]) && (r[i] == '-' || r[i] in s)
    ensures (forall i :: 0 <= i < |s| ==> !IsSpace(s[i])) ==> r == s
    decreases |s|
  {
    if |s| == 0 then ""
    else if IsSpace(s[0]) then "-" + DashSpaceRuns(s[RunLength(s, IsSpace)..])
    else [s[0]] + DashSpaceRuns(s[1..])
  }

  /** `generateSlug`: lower-case, drop everything but word characters, white
      space and `-`, then turn each white-space run into one `-`. The result
      consists of lower-case letters, digits, `_` and `-` only. */
  function GenerateSlug(title: string): (r: string)
    ensures forall i :: 0 <= i < |r| ==> IsSlugChar(r[i])
    ensures (forall i :: 0 <= i < |title| ==> IsSlugChar(title[i])) ==> r == title
  {
    var lowered := Lower(title);
    var kept := DropDisallowed(lowered);
    assert forall c :: c in lowered ==> !IsUpperAscii(c);
    SlugCharsKept(title);
    DashSpaceRuns(kept)
  }

  lemma SlugCharNotSpace(c: char)
    requires IsSlugChar(c)
    ensures !IsSpace(c)
  {
  }

  lemma SlugCharsKept(title: string)
    ensures (forall i :: 0 <= i < |title| ==> IsSlugChar(title[i])) ==>
              DashSpaceRuns(DropDisallowed(Lower(title))) == title
  {
    if forall i :: 0 <= i < |title| ==> IsSlugChar(title[i]) {
      assert forall i :: 0 <= i < |title| ==> !IsUpperAscii(title[i]);
      assert Lower(title) == title;
      assert forall i :: 0 <= i < |title| ==> KeptInSlug(title[i]);
      assert DropDisallowed(title) == title;
      assert forall i :: 0 <= i < |title| ==> !IsSpace(title[i]) by {
        forall i | 0 <= i < |title| ensures !IsSpace(title[i]) {
          SlugCharNotSpace(title[i]);
        }
      }
    }
  }

  /** Two words joined by white space give their slugs joined by one `-`. */
  lemma SlugJoinsWords(a: string, gap: string, b: string)
    requires forall i :: 0 <= i < |a| ==> !IsSpace(a[i])
    requires |gap| > 0 && forall i :: 0 <= i < |gap| ==> IsSpace(gap[i])
    requires forall i :: 0 <= i < |b| ==> !IsSpace(b[i])
    ensures GenerateSlug(a + gap + b) == GenerateSlug(a) + "-" + GenerateSlug(b)
  {
    var ka, kb := DropDisallowed(Lower(a)), DropDisallowed(Lower(b));
    KeptAroundGap(a, gap, b);
    NoSpaceKept(a);
    NoSpaceKept(b);
    DashSpaceRunsSplits(ka, gap, kb);
  }

  /** Lowering and dropping leave a white-space gap between two stretches
      as it is. */
  lemma KeptAroundGap(a: string, gap: string, b: string)
    requires forall i :: 0 <= i < |gap| ==> IsSpace(gap[i])
    ensures DropDisallowed(Lower(a + gap + b)) == DropDisallowed(Lower(a)) + gap + DropDisallowed(Lower(b))
  {
    LowerConcat(a + gap, b);
    LowerConcat(a, gap);
    var la, lg, lb := Lower(a), Lower(gap), Lower(b);
    assert lg == gap;
    FilterConcat(la + lg, lb, KeptInSlug);
    FilterConcat(la, lg, KeptInSlug);
    FilterAll(lg, KeptInSlug);
  }

  lemma NoSpaceKept(a: string)
    requires forall i :: 0 <= i < |a| ==> !IsSpace(a[i])
    ensures forall i :: 0 <= i < |DropDisallowed(Lower(a))| ==> !IsSpace(DropDisallowed(Lower(a))[i])
  {
    var la := Lower(a);
    assert forall c :: c in la ==> !IsSpace(c);
  }

  /** A slug is its own slug. */
  lemma SlugIdempotent(title: string)
    ensures GenerateSlug(GenerateSlug(title)) == GenerateSlug(title)
  {
  }

  /** A run of white space between two stretches that do not border on white
      space becomes exactly one `-`. */
  lemma {:induction false} DashSpaceRunsSplits(a: string, gap: string, b: string)
    requires |gap| > 0 && forall i :: 0 <= i < |gap| ==> IsSpace(gap[i])
    requires |a| == 0 || !IsSpace(a[|a| - 1])
    requires |b| == 0 || !IsSpace(b[0])
    ensures DashSpaceRuns(a + gap + b) == DashSpaceRuns(a) + "-" + DashSpaceRuns(b)
    decreases |a|
  {
    if |a| == 0 {
      assert a + gap + b == gap + b;
      DashLeadingGap(gap, b);
    } else if IsSpace(a[0]) {
      DashLeadingRun(a, gap, b);
    } else {
      DashLeadingChar(a, gap, b);
    }
  }

  lemma {:induction false} DashLeadingChar(a: string, gap: string, b: string)
    requires |gap| > 0 && forall i :: 0 <= i < |gap| ==> IsSpace(gap[i])
    requires |a| > 0 && !IsSpace(a[0]) && !IsSpace(a[|a| - 1])
    requires |b| == 0 || !IsSpace(b[0])
    ensures DashSpaceRuns(a + gap + b) == DashSpaceRuns(a) + "-" + DashSpaceRuns(b)
    decreases |a|, 0
  {
    var s := a + gap + b;
    assert s[0] == a[0];
    assert s[1..] == a[1..] + gap + b;
    DashSpaceRunsSplits(a[1..], gap, b);
    assert DashSpaceRuns(a) == [a[0]] + DashSpaceRuns(a[1..]);
    assert DashSpaceRuns(s) == [a[0]] + DashSpaceRuns(s[1..]);
  }

  lemma DashLeadingGap(gap: string, b: string)
    requires |gap| > 0 && forall i :: 0 <= i < |gap| ==> IsSpace(gap[i])
    requires |b| == 0 || !IsSpace(b[0])
    ensures DashSpaceRuns(gap + b) == "-" + DashSpaceRuns(b)
  {
    var s := gap + b;
    RunLengthIs(s, IsSpace, |gap|);
    assert s[|gap|..] == b;
  }

  lemma {:induction false} DashLeadingRun(a: string, gap: string, b: string)
    requires |gap| > 0 && forall i :: 0 <= i < |gap| ==> IsSpace(gap[i])
    requires |a| > 0 && IsSpace(a[0]) && !IsSpace(a[|a| - 1])
    requires |b| == 0 || !IsSpace(b[0])
    ensures DashSpaceRuns(a + gap + b) == DashSpaceRuns(a) + "-" + DashSpaceRuns(b)
    decreases |a|, 0
  {
    var n := RunLength(a, IsSpace);
    var x, y := DashSpaceRuns(a[n..]), DashSpaceRuns(b);
    assert DashSpaceRuns(a[n..] + gap + b) == x + "-" + y by {
      DashSpaceRunsSplits(a[n..], gap, b);
    }
    assert DashSpaceRuns(a + gap + b) == "-" + DashSpaceRuns(a[n..] + gap + b) by {
      DashRunPrefix(a, gap + b);
      Regroup(a, gap, b, n);
    }
    assert DashSpaceRuns(a) == "-" + x by {
      DashRunPrefix(a, []);
      assert a + [] == a && a[n..] + [] == a[n..];
    }
    DashRegroup(x, y);
  }

  lemma Regroup(a: string, gap: string, b: string, n: nat)
    requires n <= |a|
    ensures a + gap + b == a + (gap + b)
    ensures a[n..] + (gap + b) == a[n..] + gap + b
  {
  }

  lemma DashRegroup(x: string, y: string)
    ensures "-" + (x + "-" + y) == ("-" + x) + "-" + y
  {
  }

  /** A leading run of white space that stops inside `a` becomes one `-`,
      whatever follows `a`. */
  lemma DashRunPrefix(a: string, t: string)
    requires |a| > 0 && IsSpace(a[0]) && RunLength(a, IsSpace) < |a|
    ensures DashSpaceRuns(a + t) == "-" + DashSpaceRuns(a[RunLength(a, IsSpace)..] + t)
  {
    var n := RunLength(a, IsSpace);
    RunLengthExtends(a, t, IsSpace);
    assert (a + t)[0] == a[0];
    assert (a + t)[n..] == a[n..] + t;
  }

  // -------------------------------------------------------- reading time

  /** `calculateReadingTime`: minutes at 200 words a minute, rounded up,
      counting the pieces of the trimmed content split at white space; empty
      content still counts as one piece, so the result is at least 1. */
  function ReadingTime(content: string): (r: int)
    ensures r >= 1
    ensures r == CeilDiv(if Words(content) == 0 then 1 else Words(content), WordsPerMinute)
  {
    TrimmedPieces(content);
    CeilDiv(PieceCount(Trim(content), IsSpace), WordsPerMinute)
  }

  // ---------------------------------------------------------------- posts

  /** `createPost`: stores the draft under `id` with its slug and reading time
      derived from its title and content; every other field is the draft's. */
  function CreatePost(store: Store, id: string, draft: Post): (r: (Store, Post))
    ensures r.1.id == id
    ensures r.1.slug == GenerateSlug(draft.title)
    ensures r.1.readingTime == ReadingTime(draft.content)
    ensures r.1.(id := draft.id, slug := draft.slug, readingTime := draft.readingTime) == draft
    ensures r.0.posts.entries == store.posts.entries[id := r.1]
    ensures r.0.categories == store.categories && r.0.tags == store.tags
    ensures id !in store.posts.entries ==>
              |r.0.posts.entries| == |store.posts.entries| + 1 && r.0.posts.order == store.posts.order + [id]
    ensures id in store.posts.entries ==> r.0.posts.order == store.posts.order
  {
    var post := draft.(id := id, slug := GenerateSlug(draft.title), readingTime := ReadingTime(draft.content));
    (store.(posts := OrderedMap.Set(store.posts, id, post)), post)
  }

  /** `getPost` */
  function GetPost(store: Store, id: string): (r: Result<Post, AppError>)
    ensures r.Ok? <==> id in store.posts.entries
    ensures r.Ok? ==> r.value == store.posts.entries[id]
    ensures r.Err? ==> r.error == PostNotFound
  {
    match OrderedMap.Get(store.posts, id)
    case Some(p) => Ok(p)
    case None => Err(PostNotFound)
  }

  /** `updatePost`: the supplied fields override the stored post, `updatedAt`
      becomes `now`, and the post keeps its place; an unknown id fails with
      NOT_FOUND. */
  function UpdatePost(store: Store, id: string, patch: PostPatch, now: int): (r: Result<(Store, Post), AppError>)
    ensures r.Err? <==> id !in store.posts.entries
    ensures r.Err? ==> r.error == PostNotFound
    ensures r.Ok? ==> r.value.1 == PatchPost(store.posts.entries[id], patch).(updatedAt := Some(now))
    ensures r.Ok? ==> r.value.0.posts.entries == store.posts.entries[id := r.value.1]
    ensures r.Ok? ==> r.value.0.posts.order == store.posts.order
    ensures r.Ok? ==> r.value.0.categories == store.categories && r.value.0.tags == store.tags
  {
    match OrderedMap.Get(store.posts, id)
    case None => Err(PostNotFound)
    case Some(post) =>
      var updated := PatchPost(post, patch).(updatedAt := Some(now));
      Ok((store.(posts := OrderedMap.Set(store.posts, id, updated)), updated))
  }

  /** `deletePost`: succeeds exactly when the id was stored. */
  function DeletePost(store: Store, id: string): (r: Result<Store, AppError>)
    ensures r.Err? <==> id !in store.posts.entries
    ensures r.Err? ==> r.error == PostNotFound
    ensures r.Ok? ==> r.value.posts.entries == store.posts.entries - {id}
    ensures r.Ok? ==> r.value.posts.order == OrderedMap.Without(store.posts.order, id)
    ensures r.Ok? ==> |r.value.posts.entries| == |store.posts.entries| - 1
    ensures r.Ok? ==> r.value.categories == store.categories && r.value.tags == store.tags
  {
    var (posts, existed) := OrderedMap.Delete(store.posts, id);
    if existed then Ok(store.(posts := posts)) else Err(PostNotFound)
  }

  /** After a delete the post is gone: looking it up or deleting it again
      fails with NOT_FOUND. */
  lemma DeleteThenMissing(store: Store, id: string)
    requires id in store.posts.entries
    ensures DeletePost(store, id).Ok?
    ensures GetPost(DeletePost(store, id).value, id) == Err(PostNotFound)
    ensures DeletePost(DeletePost(store, id).value, id) == Err(PostNotFound)
  {
  }

  /** `getPostBySlug`: the first post in insertion order with that slug. */
  function GetPostBySlug(store: Store, slug: string): (r: Result<Post, AppError>)
    ensures r.Ok? ==> r.value.slug == slug
    ensures r.Ok? ==> exists i :: 0 <= i < |store.posts.order| && OrderedMap.Values(store.posts)[i] == r.value
                        && forall j :: 0 <= j < i ==> OrderedMap.Values(store.posts)[j].slug != slug
    ensures r.Err? ==> r.error == PostNotFound
    ensures r.Err? <==> forall k :: k in store.posts.entries ==> store.posts.entries[k].slug != slug
  {
    var all := OrderedMap.Values(store.posts);
    match FindIndex(all, (p: Post) => p.slug == slug)
    case Some(i) => Ok(all[i])
    case None =>
      assert forall k :: k in store.posts.entries ==> store.posts.entries[k].slug != slug by {
        forall k | k in store.posts.entries
          ensures store.posts.entries[k].slug != slug
        {
          OrderedMap.ValuesAreEntries(store.posts, store.posts.entries[k]);
        }
      }
      Err(PostNotFound)
  }

  // -------------------------------------------------------------- listing

  predicate CategoryActive(params: ListParams) {
    params.category.Some? && params.category.value != ""
  }

  predicate TagActive(params: ListParams) {
    params.tag.Some? && params.tag.value != ""
  }

  /** A post passes every filter the parameters supply; an empty category or
      tag is no filter. */
  predicate Matches(p: Post, params: ListParams) {
    && (CategoryActive(params) ==> p.category == params.category.value)
    && (TagActive(params) ==> params.tag.value in p.tags)
    && (params.status.Some? ==> p.status == params.status.value)
  }

  /** Reference selection: the posts of `s` that pass every filter. */
  function Selected(s: seq<Post>, params: ListParams): seq<Post>
    decreases |s|
  {
    if |s| == 0 then []
    else (if Matches(s[0], params) then [s[0]] else []) + Selected(s[1..], params)
  }

  /** `if (on) s = s.filter(f)` */
  function FilterWhen(s: seq<Post>, on: bool, f: Post -> bool): seq<Post> {
    if on then Filter(s, f) else s
  }

  function ByCategory(params: ListParams): Post -> bool {
    (p: Post) => p.category == params.category.GetOr("")
  }

  function ByTag(params: ListParams): Post -> bool {
    (p: Post) => params.tag.GetOr("") in p.tags
  }

  function ByStatus(params: ListParams): Post -> bool {
    (p: Post) => p.status == params.status.GetOr(Draft)
  }

  /** The filters `listPosts` applies one after another. */
  function Narrow(all: seq<Post>, params: ListParams): seq<Post> {
    var byCategory := FilterWhen(all, CategoryActive(params), ByCategory(params));
    var byTag := FilterWhen(byCategory, TagActive(params), ByTag(params));
    FilterWhen(byTag, params.status.Some?, ByStatus(params))
  }

  /** The chain of filters selects exactly the posts passing all of them. */
  lemma {:induction false} NarrowSelects(all: seq<Post>, params: ListParams)
    ensures Narrow(all, params) == Selected(all, params)
    decreases |all|
  {
    if |all| > 0 {
      var rest := all[1..];
      assert all == [all[0]] + rest;
      NarrowConcat([all[0]], rest, params);
      NarrowSingle(all[0], params);
      NarrowSelects(rest, params);
    }
  }

  lemma NarrowConcat(a: seq<Post>, b: seq<Post>, params: ListParams)
    ensures Narrow(a + b, params) == Narrow(a, params) + Narrow(b, params)
  {
    var byCategoryA := FilterWhen(a, CategoryActive(params), ByCategory(params));
    var byCategoryB := FilterWhen(b, CategoryActive(params), ByCategory(params));
    FilterWhenConcat(a, b, CategoryActive(params), ByCategory(params));
    var byTagA := FilterWhen(byCategoryA, TagActive(params), ByTag(params));
    var byTagB := FilterWhen(byCategoryB, TagActive(params), ByTag(params));
    FilterWhenConcat(byCategoryA, byCategoryB, TagActive(params), ByTag(params));
    FilterWhenConcat(byTagA, byTagB, params.status.Some?, ByStatus(params));
  }

  lemma FilterWhenConcat(a: seq<Post>, b: seq<Post>, on: bool, f: Post -> bool)
    ensures FilterWhen(a + b, on, f) == FilterWhen(a, on, f) + FilterWhen(b, on, f)
  {
    if on {
      FilterConcat(a, b, f);
    }
  }

  lemma NarrowSingle(x: Post, params: ListParams)
    ensures Narrow([x], params) == if Matches(x, params) then [x] else []
  {
    assert [x][1..] == [];
  }

  function PageOf(params: ListParams): int {
    if params.page.Some? && params.page.value != 0 then params.page.value else 1
  }

  function LimitOf(params: ListParams): int {
    if params.limit.Some? && params.limit.value != 0 then params.limit.value else DefaultLimit
  }

  /** `listPosts`: the posts passing every supplied filter, newest first (posts
      published at the same instant stay in insertion order), cut to the
      requested page; `total` counts every selected post and `totalPages` is
      the number of pages of `limit` posts they fill. */
  function ListPosts(store: Store, params: ListParams): (r: ListPage)
    ensures forall i :: 0 <= i < |r.posts| ==> Matches(r.posts[i], params) && r.posts[i] in store.posts.entries.Values
    ensures NewestFirst.Descending(r.posts, PublishedAt)
    ensures r.total == |Selected(OrderedMap.Values(store.posts), params)|
    ensures r.page == PageOf(params)
    ensures r.totalPages == CeilDiv(r.total, LimitOf(params))
    ensures IsPage(r.posts, NewestFirst.Sort(Selected(OrderedMap.Values(store.posts), params), PublishedAt), params)
    ensures InSortedSelection(r.posts, store, params)
  {
    var all := OrderedMap.Values(store.posts);
    var filtered := Narrow(all, params);
    var sorted := NewestFirst.Sort(filtered, PublishedAt);
    var posts := Window(sorted, params);
    ListPostsFacts(store, params);
    ListPostsWindow(store, params);
    ListPage(posts, |filtered|, PageOf(params), CeilDiv(|filtered|, LimitOf(params)))
  }

  /** `slice((page - 1) * limit, (page - 1) * limit + limit)` */
  function Window(sorted: seq<Post>, params: ListParams): (r: seq<Post>)
    ensures exists lo, hi :: 0 <= lo <= hi <= |sorted| && r == sorted[lo..hi]
    ensures IsPage(r, sorted, params)
  {
    var start := FirstIndexOf(params);
    SliceIsWindow(sorted, start, start + LimitOf(params));
    PageWindow(sorted, PageOf(params), LimitOf(params), start);
    Slice(sorted, start, start + LimitOf(params))
  }

  /** For a page and a limit of at least 1, `window` is the page-th run of
      `limit` entries of `sorted`, clipped to its end. */
  predicate IsPage(window: seq<Post>, sorted: seq<Post>, params: ListParams) {
    var start := FirstIndexOf(params);
    PageOf(params) >= 1 && LimitOf(params) >= 1 ==>
      |window| <= LimitOf(params) && window == sorted[Min(start, |sorted|)..Min(start + LimitOf(params), |sorted|)]
  }

  /** Where a page begins: `(page - 1) * limit`. */
  function FirstIndexOf(params: ListParams): (r: int)
    ensures PageOf(params) >= 1 && LimitOf(params) >= 1 ==> r >= 0
  {
    var page, limit := PageOf(params), LimitOf(params);
    assert page >= 1 && limit >= 1 ==> (page - 1) * limit >= 0 * limit;
    (page - 1) * limit
  }

  lemma PageWindow(s: seq<Post>, page: int, limit: int, start: int)
    requires start == (page - 1) * limit
    ensures page >= 1 && limit >= 1 ==>
              |Slice(s, start, start + limit)| <= limit
              && Slice(s, start, start + limit) == s[Min(start, |s|)..Min(start + limit, |s|)]
  {
    if page >= 1 && limit >= 1 {
      assert (page - 1) * limit >= 0 * limit;
    }
  }

  /** The page holds stored posts that pass the filters, newest first. */
  lemma ListPostsFacts(store: Store, params: ListParams)
    ensures var window := Window(NewestFirst.Sort(Narrow(OrderedMap.Values(store.posts), params), PublishedAt), params);
            && (forall i :: 0 <= i < |window| ==> Matches(window[i], params) && window[i] in store.posts.entries.Values)
            && NewestFirst.Descending(window, PublishedAt)
  {
    NarrowSelects(OrderedMap.Values(store.posts), params);
    var sorted := NewestFirst.Sort(Narrow(OrderedMap.Values(store.posts), params), PublishedAt);
    WindowFacts(store, params, sorted, Window(sorted, params));
  }

  /** The page is the requested window of the selected posts, newest first. */
  lemma ListPostsWindow(store: Store, params: ListParams)
    ensures var filtered := Narrow(OrderedMap.Values(store.posts), params);
            var window := Window(NewestFirst.Sort(filtered, PublishedAt), params);
            && |filtered| == |Selected(OrderedMap.Values(store.posts), params)|
            && IsPage(window, NewestFirst.Sort(Selected(OrderedMap.Values(store.posts), params), PublishedAt), params)
            && InSortedSelection(window, store, params)
  {
    NarrowSelects(OrderedMap.Values(store.posts), params);
  }

  /** `window` is a contiguous window of the selected posts, newest first. */
  predicate InSortedSelection(window: seq<Post>, store: Store, params: ListParams) {
    var sorted := NewestFirst.Sort(Selected(OrderedMap.Values(store.posts), params), PublishedAt);
    exists lo, hi :: 0 <= lo <= hi <= |sorted| && window == sorted[lo..hi]
  }

  lemma WindowFacts(store: Store, params: ListParams, sorted: seq<Post>, window: seq<Post>)
    requires sorted == NewestFirst.Sort(Selected(OrderedMap.Values(store.posts), params), PublishedAt)
    requires exists lo, hi :: 0 <= lo <= hi <= |sorted| && window == sorted[lo..hi]
    ensures forall i :: 0 <= i < |window| ==> Matches(window[i], params) && window[i] in store.posts.entries.Values
    ensures NewestFirst.Descending(window, PublishedAt)
  {
    var lo, hi :| 0 <= lo <= hi <= |sorted| && window == sorted[lo..hi];
    NewestFirst.WindowDescending(sorted, PublishedAt, lo, hi);
    WindowStored(store, params, sorted, lo, hi);
  }

  lemma WindowStored(store: Store, params: ListParams, sorted: seq<Post>, lo: nat, hi: nat)
    requires sorted == NewestFirst.Sort(Selected(OrderedMap.Values(store.posts), params), PublishedAt)
    requires lo <= hi <= |sorted|
    ensures forall i :: lo <= i < hi ==> Matches(sorted[i], params) && sorted[i] in store.posts.entries.Values
  {
    forall i | lo <= i < hi
      ensures Matches(sorted[i], params) && sorted[i] in store.posts.entries.Values
    {
      SortedPostIsStored(store, params, sorted, i);
    }
  }

  lemma SortedPostIsStored(store: Store, params: ListParams, sorted: seq<Post>, i: nat)
    requires sorted == NewestFirst.Sort(Selected(OrderedMap.Values(store.posts), params), PublishedAt)
    requires i < |sorted|
    ensures Matches(sorted[i], params) && sorted[i] in store.posts.entries.Values
  {
    var all := OrderedMap.Values(store.posts);
    var selected := Selected(all, params);
    NewestFirst.SortMembers(selected, PublishedAt, i);
    SelectedFromSource(all, params);
    OrderedMap.ValuesAreEntries(store.posts, sorted[i]);
  }

  /** Every selected post comes from the source and passes the filters. */
  lemma {:induction false} SelectedFromSource(s: seq<Post>, params: ListParams)
    ensures forall p :: p in Selected(s, params) ==> p in s && Matches(p, params)
    ensures |Selected(s, params)| <= |s|
    decreases |s|
  {
    if |s| > 0 {
      SelectedFromSource(s[1..], params);
    }
  }

  // ----------------------------------------------------------- categories

  /** `createCategory`: stores the draft under `id` with the slug of its
      name. */
  function CreateCategory(store: Store, id: string, draft: Category): (r: (Store, Category))
    ensures r.1.id == id && r.1.slug == GenerateSlug(draft.name)
    ensures r.1.(id := draft.id, slug := draft.slug) == draft
    ensures r.0.categories.entries == store.categories.entries[id := r.1]
    ensures r.0.posts == store.posts && r.0.tags == store.tags
    ensures id !in store.categories.entries ==>
              |r.0.categories.entries| == |store.categories.entries| + 1 && r.0.categories.order == store.categories.order + [id]
    ensures id in store.categories.entries ==> r.0.categories.order == store.categories.order
  {
    var category := draft.(id := id, slug := GenerateSlug(draft.name));
    (store.(categories := OrderedMap.Set(store.categories, id, category)), category)
  }

  /** `updateCategory`: the supplied fields override the stored category. */
  function UpdateCategory(store: Store, id: string, patch: CategoryPatch): (r: Result<(Store, Category), AppError>)
    ensures r.Err? <==> id !in store.categories.entries
    ensures r.Err? ==> r.error == CategoryNotFound
    ensures r.Ok? ==> r.value.1 == PatchCategory(store.categories.entries[id], patch)
    ensures r.Ok? ==> r.value.0.categories.entries == store.categories.entries[id := r.value.1]
    ensures r.Ok? ==> r.value.0.categories.order == store.categories.order
    ensures r.Ok? ==> r.value.0.posts == store.posts && r.value.0.tags == store.tags
  {
    match OrderedMap.Get(store.categories, id)
    case None => Err(CategoryNotFound)
    case Some(category) =>
      var updated := PatchCategory(category, patch);
      Ok((store.(categories := OrderedMap.Set(store.categories, id, updated)), updated))
  }

  /** `deleteCategory`: succeeds exactly when the id was stored. */
  function DeleteCategory(store: Store, id: string): (r: Result<Store, AppError>)
    ensures r.Err? <==> id !in store.categories.entries
    ensures r.Err? ==> r.error == CategoryNotFound
    ensures r.Ok? ==> r.value.categories.entries == store.categories.entries - {id}
    ensures r.Ok? ==> r.value.categories.order == OrderedMap.Without(store.categories.order, id)
    ensures r.Ok? ==> r.value.posts == store.posts && r.value.tags == store.tags
  {
    var (categories, existed) := OrderedMap.Delete(store.categories, id);
    if existed then Ok(store.(categories := categories)) else Err(CategoryNotFound)
  }

  /** `listCategories`: every stored category once, in insertion order. */
  function ListCategories(store: Store): (r: seq<Category>)
    ensures |r| == |store.categories.entries|
    ensures |r| == |store.categories.order|
    ensures forall i :: 0 <= i < |r| ==> store.categories.order[i] in store.categories.entries && r[i] == store.categories.entries[store.categories.order[i]]
    ensures forall c :: c in r <==> c in store.categories.entries.Values
  {
    var r := OrderedMap.Values(store.categories);
    assert forall c :: c in r <==> c in store.categories.entries.Values by {
      forall c ensures c in r <==> c in store.categories.entries.Values {
        OrderedMap.ValuesAreEntries(store.categories, c);
      }
    }
    r
  }

  // ----------------------------------------------------------------- tags

  /** `createTag`: stores the draft under `id` with the slug of its name. */
  function CreateTag(store: Store, id: string, draft: Tag): (r: (Store, Tag))
    ensures r.1.id == id && r.1.slug == GenerateSlug(draft.name)
    ensures r.1.(id := draft.id, slug := draft.slug) == draft
    ensures r.0.tags.entries == store.tags.entries[id := r.1]
    ensures r.0.posts == store.posts && r.0.categories == store.categories
    ensures id !in store.tags.entries ==>
              |r.0.tags.entries| == |store.tags.entries| + 1 && r.0.tags.order == store.tags.order + [id]
    ensures id in store.tags.entries ==> r.0.tags.order == store.tags.order
  {
    var tag := draft.(id := id, slug := GenerateSlug(draft.name));
    (store.(tags := OrderedMap.Set(store.tags, id, tag)), tag)
  }

  /** `updateTag`: the supplied fields override the stored tag. */
  function UpdateTag(store: Store, id: string, patch: TagPatch): (r: Result<(Store, Tag), AppError>)
    ensures r.Err? <==> id !in store.tags.entries
    ensures r.Err? ==> r.error == TagNotFound
    ensures r.Ok? ==> r.value.1 == PatchTag(store.tags.entries[id], patch)
    ensures r.Ok? ==> r.value.0.tags.entries == store.tags.entries[id := r.value.1]
    ensures r.Ok? ==> r.value.0.tags.order == store.tags.order
    ensures r.Ok? ==> r.value.0.posts == store.posts && r.value.0.categories == store.categories
  {
    match OrderedMap.Get(store.tags, id)
    case None => Err(TagNotFound)
    case Some(tag) =>
      var updated := PatchTag(tag, patch);
      Ok((store.(tags := OrderedMap.Set(store.tags, id, updated)), updated))
  }

  /** `deleteTag`: succeeds exactly when the id was stored. */
  function DeleteTag(store: Store, id: string): (r: Result<Store, AppError>)
    ensures r.Err? <==> id !in store.tags.entries
    ensures r.Err? ==> r.error == TagNotFound
    ensures r.Ok? ==> r.value.tags.entries == store.tags.entries - {id}
    ensures r.Ok? ==> r.value.tags.order == OrderedMap.Without(store.tags.order, id)
    ensures r.Ok? ==> r.value.posts == store.posts && r.value.categories == store.categories
  {
    var (tags, existed) := OrderedMap.Delete(store.tags, id);
    if existed then Ok(store.(tags := tags)) else Err(TagNotFound)
  }

  /** `listTags`: every stored tag once, in insertion order. */
  function ListTags(store: Store): (r: seq<Tag>)
    ensures |r| == |store.tags.entries|
    ensures |r| == |store.tags.order|
    ensures forall i :: 0 <= i < |r| ==> store.tags.order[i] in store.tags.entries && r[i] == store.tags.entries[store.tags.order[i]]
    ensures forall t :: t in r <==> t in store.tags.entries.Values
  {
    var r := OrderedMap.Values(store.tags);
    assert forall t :: t in r <==> t in store.tags.entries.Values by {
      forall t ensures t in r <==> t in store.tags.entries.Values {
        OrderedMap.ValuesAreEntries(store.tags, t);
      }
    }
    r
  }
}
