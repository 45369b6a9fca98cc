/**
 * The post page of script.js (`renderPostPage`, script.js:226-263): which post
 * the page shows and the data its article, gallery and statistics panel are
 * built from.
 */
module Detail {
  import opened Wrappers
  import opened Arith
  import opened Text
  import opened Posts

  /** At most this many gallery thumbnails are rendered (script.js:246). */
  const GalleryMax: int := 6

  /**
   * The index of the first post at or after `from` whose id is `requested`
   * (`posts.find(p => p.id === id)`). `None` stands for `Number(...)` giving
   * NaN, which equals no id.
   */
  function FindFrom(posts: seq<Post>, requested: Option<int>, from: nat): (k: Option<nat>)
    requires from <= |posts|
    ensures k.Some? ==> from <= k.value < |posts| && requested == Some(posts[k.value].id)
    ensures k.Some? ==> forall j :: from <= j < k.value ==> requested != Some(posts[j].id)
    ensures k.None? ==> forall j :: from <= j < |posts| ==> requested != Some(posts[j].id)
    decreases |posts| - from
  {
    if from == |posts| then None
    else if requested == Some(posts[from].id) then Some(from)
    else FindFrom(posts, requested, from + 1)
  }

  /**
   * `posts.find(p => p.id === id) || posts[0]` (script.js:235): the first post
   * with the requested id, else the first post, else nothing.
   */
  function Resolve(posts: seq<Post>, requested: Option<int>): (r: Option<Post>)
    ensures r.None? <==> |posts| == 0
    ensures forall k :: (0 <= k < |posts| && requested == Some(posts[k].id)
                         && forall j :: 0 <= j < k ==> posts[j].id != posts[k].id)
                        ==> r == Some(posts[k])
    ensures (|posts| > 0 && forall j :: 0 <= j < |posts| ==> requested != Some(posts[j].id))
            ==> r == Some(posts[0])
    ensures r.Some? ==> r.value in posts
  {
    match FindFrom(posts, requested, 0)
    case Some(k) => Some(posts[k])
    case None => if |posts| == 0 then None else Some(posts[0])
  }

  /**
   * The hero image (script.js:244): `images[0]` when there is a non-empty one,
   * otherwise the thumbnail.
   */
  function PrimaryImage(p: Post): (url: string)
    ensures |p.images| > 0 && p.images[0] != [] ==> url == p.images[0]
    ensures |p.images| == 0 || p.images[0] == [] ==> url == p.thumbnail
  {
    if |p.images| > 0 && p.images[0] != [] then p.images[0] else p.thumbnail
  }

  /** `images.slice(0, 6)` (script.js:246): the first six images or fewer, in order. */
  function Gallery(p: Post): (g: seq<string>)
    ensures |g| == Min(GalleryMax, |p.images|)
    ensures g == p.images[..|g|]
    ensures forall i :: 0 <= i < |g| ==> g[i] == p.images[i]
  {
    SliceTo(p.images, GalleryMax)
  }

  /** The hashtags of the meta line, one per tag, in order, before `join(' ')` (script.js:243). */
  function TagLine(tags: seq<string>): (line: seq<string>)
    ensures |line| == |tags|
    ensures forall i :: 0 <= i < |line| ==> line[i] == "#" + EscapeHtml(Some(tags[i]))
    ensures forall i :: 0 <= i < |line| ==> '<' !in line[i]
  {
    if tags == [] then [] else ["#" + EscapeHtml(Some(tags[0]))] + TagLine(tags[1..])
  }

  /**
   * What the post page shows: the "not found" placeholder, or an article
   * built from one post together with the statistics panel and the post whose
   * comments are rendered.
   */
  datatype DetailView =
    | NotFound
    | Article(
        post: Post,
        title: string,
        author: string,
        tagLine: seq<string>,
        hero: string,
        content: string,
        gallery: seq<string>,
        titleLength: nat,
        words: nat,
        imageCount: nat,
        commentsFor: int)

  /** The view `renderPostPage` builds from the loaded posts (script.js:235-259). */
  function DetailOf(posts: seq<Post>, requested: Option<int>): (v: DetailView)
    ensures v.NotFound? <==> |posts| == 0
    ensures v.Article? ==> Resolve(posts, requested) == Some(v.post)
    ensures v.Article? ==> MarkupFree(v.title) && MarkupFree(v.author)
                           && Unescape(v.title) == v.post.title && Unescape(v.author) == v.post.author
    ensures v.Article? ==> v.hero == PrimaryImage(v.post) && v.content == v.post.content
    ensures v.Article? ==> v.gallery == v.post.images[..Min(GalleryMax, |v.post.images|)]
    ensures v.Article? ==> v.titleLength == |v.post.title| && v.imageCount == |v.post.images|
    ensures v.Article? ==> v.words == RunCount(StripTags(v.post.content))
    ensures v.Article? ==> v.tagLine == TagLine(v.post.tags)
    ensures v.Article? ==> v.commentsFor == v.post.id
  {
    match Resolve(posts, requested)
    case None => NotFound
    case Some(p) =>
      Article(p, EscapeHtml(Some(p.title)), EscapeHtml(Some(p.author)), TagLine(p.tags),
              PrimaryImage(p), p.content, Gallery(p), |p.title|, StripWords(Some(p.content)),
              |p.images|, p.id)
  }

  /** The posts the lookup runs over: the session's, or a fresh load when there are none. */
  function PostsForPage(posts: seq<Post>, response: Option<seq<Post>>): (r: seq<Post>)
    ensures |posts| > 0 ==> r == posts
    ensures |posts| == 0 ==> r == Loaded(response)
    ensures |r| == 0 <==> |posts| == 0 && response == Some([])
  {
    if |posts| == 0 then Loaded(response) else posts
  }

  /**
   * The placeholder appears only when the session had no posts and posts.json
   * then loaded as an empty array: a failed load falls back to two posts.
   */
  lemma NotFoundOnlyForEmptyCollection(posts: seq<Post>, response: Option<seq<Post>>, requested: Option<int>)
    ensures DetailOf(PostsForPage(posts, response), requested).NotFound?
            <==> |posts| == 0 && response == Some([])
  {
  }

  /** An id that no post carries, or NaN, shows the first post rather than the placeholder. */
  lemma UnknownIdShowsFirstPost(posts: seq<Post>, requested: Option<int>)
    requires |posts| > 0
    requires forall j :: 0 <= j < |posts| ==> requested != Some(posts[j].id)
    ensures DetailOf(posts, requested).Article?
    ensures DetailOf(posts, requested).post == posts[0]
    ensures DetailOf(posts, requested).commentsFor == posts[0].id
  {
  }

  /**
   * `renderPostPage`: load the posts first when the session has none, then
   * build the view.
   */
  method RenderPostPage(session: Session, requested: Option<int>, response: Option<seq<Post>>)
      returns (v: DetailView)
    requires session.Valid()
    modifies session`posts
    ensures session.Valid()
    ensures session.posts == PostsForPage(old(session.posts), response)
    ensures v == DetailOf(session.posts, requested)
  {
    if |session.posts| == 0 {
      session.FetchPosts(response);
    }
    v := DetailOf(session.posts, requested);
  }
}
