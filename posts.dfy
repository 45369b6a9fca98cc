/**
 * The index page of script.js: the post collection held for the session, the
 * newest-first ordering, the featured post, the paginated grid and "load more".
 */
module Posts {
  import opened Wrappers
  import opened Arith
  import opened Text

  /**
   * A post as loaded from posts.json. `date` is the value `new Date(date)`
   * orders by. Absent optional fields (author, tags, images, content) are their
   * empty value: every use in script.js treats absent and empty alike.
   */
  datatype Post = Post(
    id: int,
    title: string,
    author: string,
    date: int,
    tags: seq<string>,
    thumbnail: string,
    images: seq<string>,
    excerpt: string,
    content: string)

  /** The number of posts shown before the first "load more" (script.js:30). */
  const InitialVisible: int := 6
  /** How many more posts each "load more" reveals (script.js:220). */
  const LoadStep: int := 3

  /** The two posts `fetchPosts` substitutes when posts.json cannot be loaded (script.js:168-171). */
  const Fallback: seq<Post> := [
    Post(1, "Redefining Creativity in the AI Age", "Beyond the Screens", 20251012, ["Tech", "AI"],
         "https://images.unsplash.com/photo-1526378729603-0e3b005a9b54?q=80&w=1600&auto=format&fit=crop",
         ["https://images.unsplash.com/photo-1526378729603-0e3b005a9b54?q=80&w=2000&auto=format&fit=crop"],
         "We\U{2019}re not just coding algorithms \U{2014} we\U{2019}re training imagination.",
         "<p>Across studios and garage labs, creators are using AI as a collaborator.</p>"),
    Post(2, "Humanity in the Digital Lens", "Izzy", 20251008, ["Culture"],
         "https://images.unsplash.com/photo-1504198453319-5ce911bafcde?q=80&w=1600&auto=format&fit=crop",
         ["https://images.unsplash.com/photo-1504198453319-5ce911bafcde?q=80&w=2000&auto=format&fit=crop"],
         "From feeds to feeling \U{2014} a photographic essay.",
         "<p>A week's worth of images and moments captured in Lagos.</p>")
  ]

  /**
   * The collection `fetchPosts` leaves behind: the parsed array when the fetch
   * and the parse succeed (`Some`), the fallback otherwise (`None`).
   */
  function Loaded(response: Option<seq<Post>>): (posts: seq<Post>)
    ensures response.None? ==> posts == Fallback && |posts| == 2
    ensures response.Some? ==> posts == response.value
  {
    response.GetOr(Fallback)
  }

  // ---------------------------------------------------------------------------
  // Newest-first ordering

  /** Dates never increase along `s`. */
  predicate NewestFirst(s: seq<Post>) {
    forall i, j :: 0 <= i < j < |s| ==> s[i].date >= s[j].date
  }

  /** Inserts `p` in front of the first post whose date is not later than its own. */
  function Insert(p: Post, s: seq<Post>): (r: seq<Post>)
    ensures multiset(r) == multiset(s) + multiset{p}
    ensures NewestFirst(s) ==> NewestFirst(r)
  {
    if s == [] then [p]
    else if s[0].date <= p.date then
      PrependNewest(p, s);
      [p] + s
    else
      var rest := Insert(p, s[1..]);
      assert s == [s[0]] + s[1..];
      InsertedBelow(p, s, rest);
      [s[0]] + rest
  }

  /** Putting `x` in front keeps the order when no post of `t` is later than `x`. */
  lemma NewestFirstCons(x: Post, t: seq<Post>)
    requires NewestFirst(t)
    requires forall i :: 0 <= i < |t| ==> t[i].date <= x.date
    ensures NewestFirst([x] + t)
  {
    var r := [x] + t;
    forall i, j | 0 <= i < j < |r| ensures r[i].date >= r[j].date {
      assert r[j] == t[j - 1];
      if i > 0 {
        assert r[i] == t[i - 1];
      }
    }
  }

  /** A post no earlier than the head of an ordered sequence can go in front of it. */
  lemma PrependNewest(x: Post, t: seq<Post>)
    requires t != [] && t[0].date <= x.date
    ensures NewestFirst(t) ==> NewestFirst([x] + t)
  {
    if NewestFirst(t) {
      forall i | 0 <= i < |t| ensures t[i].date <= x.date {
        assert i > 0 ==> t[0].date >= t[i].date;
      }
      NewestFirstCons(x, t);
    }
  }

  /** One step of `Insert` past a later head keeps the order. */
  lemma InsertedBelow(p: Post, s: seq<Post>, rest: seq<Post>)
    requires s != [] && s[0].date > p.date
    requires multiset(rest) == multiset(s[1..]) + multiset{p}
    requires NewestFirst(s[1..]) ==> NewestFirst(rest)
    ensures NewestFirst(s) ==> NewestFirst([s[0]] + rest)
  {
    if NewestFirst(s) {
      assert NewestFirst(s[1..]) by {
        forall i, j | 0 <= i < j < |s[1..]| ensures s[1..][i].date >= s[1..][j].date {
          assert s[1..][i] == s[i + 1] && s[1..][j] == s[j + 1];
        }
      }
      forall i | 0 <= i < |rest| ensures rest[i].date <= s[0].date {
        assert rest[i] in multiset(rest);
        if rest[i] != p {
          assert rest[i] in multiset(s[1..]);
          var k :| 0 <= k < |s[1..]| && s[1..][k] == rest[i];
          assert s[k + 1] == rest[i];
        }
      }
      NewestFirstCons(s[0], rest);
    }
  }

  /**
   * `posts.slice().sort((a, b) => new Date(b.date) - new Date(a.date))`
   * (script.js:179, script.js:197): a stable newest-first sort, here an
   * insertion sort.
   */
  function SortByDate(s: seq<Post>): (r: seq<Post>)
    ensures multiset(r) == multiset(s)
    ensures |r| == |s|
    ensures NewestFirst(r)
  {
    if s == [] then []
    else
      assert s == [s[0]] + s[1..];
      Insert(s[0], SortByDate(s[1..]))
  }

  /** The posts of `s` dated `d`, in their order in `s`. */
  function WithDate(s: seq<Post>, d: int): seq<Post> {
    if s == [] then [] else (if s[0].date == d then [s[0]] else []) + WithDate(s[1..], d)
  }

  lemma {:induction false} InsertWithDate(p: Post, s: seq<Post>, d: int)
    requires NewestFirst(s)
    ensures WithDate(Insert(p, s), d) == (if p.date == d then [p] else []) + WithDate(s, d)
  {
    if s != [] && s[0].date > p.date {
      var rest := Insert(p, s[1..]);
      assert Insert(p, s) == [s[0]] + rest;
      assert ([s[0]] + rest)[1..] == rest;
      assert NewestFirst(s[1..]) by {
        forall i, j | 0 <= i < j < |s[1..]| ensures s[1..][i].date >= s[1..][j].date {
          assert s[1..][i] == s[i + 1] && s[1..][j] == s[j + 1];
        }
      }
      InsertWithDate(p, s[1..], d);
      assert p.date == d ==> s[0].date != d;
    } else if s != [] {
      assert ([p] + s)[1..] == s;
    }
  }

  /** The sort is stable: the posts of any one date keep their original relative order. */
  lemma {:induction false} SortIsStable(s: seq<Post>, d: int)
    ensures WithDate(SortByDate(s), d) == WithDate(s, d)
  {
    if s != [] {
      SortIsStable(s[1..], d);
      InsertWithDate(s[0], SortByDate(s[1..]), d);
    }
  }

  // ---------------------------------------------------------------------------
  // Featured post

  /**
   * A reference for the featured post: the index of the first post holding
   * the latest date, found by a scan from the back.
   */
  function LatestIndex(s: seq<Post>): (k: nat)
    requires |s| > 0
    ensures k < |s|
    ensures forall i :: 0 <= i < |s| ==> s[i].date <= s[k].date
    ensures forall i :: 0 <= i < k ==> s[i].date < s[k].date
  {
    if |s| == 1 then 0
    else
      var k := LatestIndex(s[1..]);
      if s[0].date >= s[1..][k].date then 0 else k + 1
  }

  /** The post the featured card shows (script.js:178-180); none when there are no posts. */
  function Featured(posts: seq<Post>): (f: Option<Post>)
    ensures f.None? <==> |posts| == 0
  {
    if |posts| == 0 then None else Some(SortByDate(posts)[0])
  }

  /**
   * The featured post is the first post, in the collection's own order, among
   * those holding the latest date.
   */
  lemma {:induction false} FeaturedIsFirstLatest(posts: seq<Post>)
    requires |posts| > 0
    ensures Featured(posts) == Some(posts[LatestIndex(posts)])
  {
    if |posts| > 1 {
      FeaturedIsFirstLatest(posts[1..]);
      assert posts == [posts[0]] + posts[1..];
    }
  }

  /** The featured post's date is at least every post's date, and no earlier post ties it. */
  lemma FeaturedIsLatest(posts: seq<Post>)
    requires |posts| > 0
    ensures Featured(posts).Some?
    ensures forall i :: 0 <= i < |posts| ==> posts[i].date <= Featured(posts).value.date
    ensures exists k :: 0 <= k < |posts| && posts[k] == Featured(posts).value
                        && forall i :: 0 <= i < k ==> posts[i].date < posts[k].date
  {
    FeaturedIsFirstLatest(posts);
    var k := LatestIndex(posts);
    assert posts[k] == Featured(posts).value;
  }

  // ---------------------------------------------------------------------------
  // Grid

  /**
   * `s.slice(0, end)`: a negative `end` counts from the back of `s`, an `end`
   * past the back is the back.
   */
  function SliceTo<T>(s: seq<T>, end: int): (r: seq<T>)
    ensures |r| <= |s| && r == s[..|r|]
    ensures end >= 0 ==> |r| == Min(end, |s|)
    ensures end < 0 ==> |r| == Max(|s| + end, 0)
  {
    if end < 0 then s[..Max(|s| + end, 0)]
    else if end <= |s| then s[..end]
    else s
  }

  /** The posts the grid shows (script.js:197-198). */
  function Grid(posts: seq<Post>, visibleCount: int): (g: seq<Post>)
    ensures |g| <= |posts|
    ensures visibleCount >= 0 ==> |g| == Min(visibleCount, |posts|)
    ensures g == SortByDate(posts)[..|g|]
  {
    SliceTo(SortByDate(posts), visibleCount)
  }

  /**
   * For a visible count that is not negative, the grid is the newest-first
   * prefix of the collection of length min(visibleCount, |posts|): all of it
   * once visibleCount reaches |posts|, none of it at 0.
   */
  lemma GridIsNewestPrefix(posts: seq<Post>, visibleCount: int)
    requires visibleCount >= 0
    ensures |Grid(posts, visibleCount)| == Min(visibleCount, |posts|)
    ensures Grid(posts, visibleCount) == SortByDate(posts)[..Min(visibleCount, |posts|)]
    ensures NewestFirst(Grid(posts, visibleCount))
    ensures multiset(Grid(posts, visibleCount)) <= multiset(posts)
    ensures visibleCount >= |posts| ==> multiset(Grid(posts, visibleCount)) == multiset(posts)
  {
    var sorted := SortByDate(posts);
    var n := Min(visibleCount, |posts|);
    assert sorted == sorted[..n] + sorted[n..];
    assert multiset(sorted) == multiset(sorted[..n]) + multiset(sorted[n..]);
  }

  // ---------------------------------------------------------------------------
  // Cards: the text each index-page template is built from

  /** A grid card (script.js:200-212): the escaped title and excerpt, the thumbnail and the link target. */
  datatype Card = Card(id: int, thumbnail: string, title: string, excerpt: string)

  /** The featured card (script.js:181-189): as a grid card plus its label. */
  datatype FeaturedCard = FeaturedCard(id: int, thumbnail: string, tagLabel: string, title: string, excerpt: string)

  /** A string the page inserts as text: no `<`, and every `&` starts an entity. */
  predicate MarkupFree(s: string) {
    '<' !in s && forall i :: 0 <= i < |s| && s[i] == '&' ==> EntityAt(s, i)
  }

  function CardOf(p: Post): (c: Card)
    ensures MarkupFree(c.title) && MarkupFree(c.excerpt)
    ensures Unescape(c.title) == p.title && Unescape(c.excerpt) == p.excerpt
    ensures c.id == p.id && c.thumbnail == p.thumbnail
  {
    Card(p.id, p.thumbnail, EscapeHtml(Some(p.title)), EscapeHtml(Some(p.excerpt)))
  }

  /** The featured label `(tags && tags[0]) || 'Featured'`: the first tag unless it is absent or empty. */
  function FeaturedLabel(tags: seq<string>): (r: string)
    ensures |tags| > 0 && tags[0] != [] ==> r == tags[0]
    ensures |tags| == 0 || tags[0] == [] ==> r == "Featured"
  {
    if |tags| > 0 && tags[0] != [] then tags[0] else "Featured"
  }

  /** `renderFeatured` (script.js:177-192): nothing when there are no posts. */
  function FeaturedCardOf(posts: seq<Post>): (c: Option<FeaturedCard>)
    ensures c.None? <==> |posts| == 0
    ensures c.Some? ==> MarkupFree(c.value.tagLabel) && MarkupFree(c.value.title) && MarkupFree(c.value.excerpt)
    ensures c.Some? ==> c.value.id == Featured(posts).value.id
                        && Unescape(c.value.title) == Featured(posts).value.title
                        && Unescape(c.value.tagLabel) == FeaturedLabel(Featured(posts).value.tags)
                        && Unescape(c.value.excerpt) == Featured(posts).value.excerpt
                        && c.value.thumbnail == Featured(posts).value.thumbnail
  {
    match Featured(posts)
    case None => None
    case Some(f) =>
      Some(FeaturedCard(f.id, f.thumbnail, EscapeHtml(Some(FeaturedLabel(f.tags))),
                        EscapeHtml(Some(f.title)), EscapeHtml(Some(f.excerpt))))
  }

  // ---------------------------------------------------------------------------
  // The page's session state

  /** `visibleCount` after one "load more" (script.js:220-221). */
  function NextVisible(visibleCount: int, total: nat): (v: int)
    ensures v <= total
    ensures visibleCount >= 0 ==> v >= 0
    ensures visibleCount + LoadStep <= total ==> v == visibleCount + LoadStep
    ensures visibleCount + LoadStep > total ==> v == total
  {
    var v := visibleCount + LoadStep;
    if v > total then total else v
  }

  /** `visibleCount` after `k` presses of "load more". */
  function VisibleAfter(visibleCount: int, total: nat, k: nat): int {
    if k == 0 then visibleCount else NextVisible(VisibleAfter(visibleCount, total, k - 1), total)
  }

  /** After k >= 1 presses the count is min(start + 3k, |posts|): never past the collection. */
  lemma {:induction false} RepeatedLoadMore(visibleCount: int, total: nat, k: nat)
    requires k >= 1
    ensures VisibleAfter(visibleCount, total, k) == Min(visibleCount + LoadStep * k, total)
  {
    if k > 1 {
      RepeatedLoadMore(visibleCount, total, k - 1);
    }
  }

  /**
   * The page's module-level state: the `posts` array and the `visibleCount` of
   * the grid (script.js:29-30).
   */
  class Session {
    var posts: seq<Post>
    var visibleCount: int

    /** The visible count is never negative, so the grid is always a prefix. */
    ghost predicate Valid()
      reads this
    {
      visibleCount >= 0
    }

    constructor ()
      ensures Valid()
      ensures posts == [] && visibleCount == InitialVisible
    {
      posts := [];
      visibleCount := InitialVisible;
    }

    /** `fetchPosts` (script.js:160-173); `response` is the outcome of the fetch and the parse. */
    method FetchPosts(response: Option<seq<Post>>)
      requires Valid()
      modifies this`posts
      ensures Valid()
      ensures posts == Loaded(response)
    {
      match response
      case Some(fetched) => posts := fetched;
      case None => posts := Fallback;
    }

    /** The "load more" handler (script.js:219-223), before its re-render. */
    method LoadMore()
      requires Valid()
      modifies this`visibleCount
      ensures Valid()
      ensures visibleCount == NextVisible(old(visibleCount), |posts|)
      ensures visibleCount == Min(old(visibleCount) + LoadStep, |posts|)
    {
      visibleCount := visibleCount + LoadStep;
      if visibleCount > |posts| {
        visibleCount := |posts|;
      }
    }

    /**
     * `renderPosts` (script.js:194-216): one card per post of the grid, appended
     * in grid order.
     */
    method RenderPosts() returns (cards: seq<Card>)
      requires Valid()
      ensures |cards| == Min(visibleCount, |posts|)
      ensures forall i :: 0 <= i < |cards| ==> cards[i] == CardOf(SortByDate(posts)[i])
      ensures forall i :: 0 <= i < |cards| ==> MarkupFree(cards[i].title) && MarkupFree(cards[i].excerpt)
    {
      var shown := Grid(posts, visibleCount);
      GridIsNewestPrefix(posts, visibleCount);
      cards := [];
      for i := 0 to |shown|
        invariant |cards| == i
        invariant forall j :: 0 <= j < i ==> cards[j] == CardOf(shown[j])
      {
        cards := cards + [CardOf(shown[i])];
      }
    }
  }
}
