# Beyond the Screens: content and comments layer, in Dafny

This project models the part of `script.js` that derives data rather than
drawing it. That part covers:

- the HTML escaping applied to every plain-text field;
- the word count of a post's rich content;
- the newest-first ordering that gives the featured post and the paginated
  grid of the index page, and the "load more" counter;
- the post lookup of the detail page, with its hero image, gallery and
  statistics panel;
- the per-post comment log kept in the browser's key-value storage.

Modules, one per component:

- `Wrappers`: `Option`.
- `Arith`: `Min` and `Max`.
- `Text`:
  - `escapeHTML` as two replacement passes, proved equal to a per-character
    escape;
  - `stripWords` as a faithful model of `replace(/<[^>]*>/g, '')`, then
    `split(/\s+/)`, then `filter(Boolean).length`;
  - `trim`;
  - the ECMAScript whitespace set that `\s` and `trim` share.
- `Posts`:
  - the `Post` record and the fallback collection;
  - a stable newest-first sort, with the featured post and the grid derived
    from it;
  - the card data of the index templates;
  - a `Session` class holding the page's `posts` and `visibleCount` globals,
    with `FetchPosts`, `LoadMore` and `RenderPosts` (the `forEach` that
    appends one card per grid post).
- `Detail`:
  - `posts.find(...) || posts[0]`;
  - the article view with gallery and statistics;
  - `RenderPostPage`, which loads posts first when the session has none.
- `Comments`:
  - the storage key `bts_comments_<postId>`, with the decimal rendering of
    the id proved injective;
  - the submitted-comment logic;
  - a `CommentPanel` class whose `Submit` and `Clear` keep the in-memory log
    equal to the persisted one.

Inputs from the environment are parameters:

- the outcome of the fetch and the parse of posts.json, as
  `Option<seq<Post>>`;
- the requested id, as `Option<int>`: `None` stands for `Number(...)` giving
  NaN, which equals no id, and an absent parameter is `Some(0)`;
- `Date.now()` and the ISO timestamp of a new comment;
- the answer of the `confirm` dialog, as a boolean.

Dates are integer ordering keys, standing for the value `new Date(date)`
compares by.

Absent optional post fields (author, tags, images, content) are modelled by
their empty value. Every use in script.js treats absent and empty the same way:
`x || ''`, `x && x.length`, `(tags && tags[0]) || 'Featured'`.

Three behaviours of the code worth stating:

- The grid is `sorted.slice(0, visibleCount)`, and `slice(0, end)` counts a
  negative end from the back: on three posts a count of -1 shows two posts and
  -3 shows none (`SliceTo` states both cases). `Session.Valid` keeps the count
  from going negative, and `GridIsNewestPrefix` gives the grid for every count
  that is not negative.
- Stored comments are read with `JSON.parse` and nothing catches the error
  (script.js:271). Treating malformed stored data as an empty log is not what
  the code does, and it is not modelled.
- A non-numeric id becomes NaN, not 0 (script.js:231). Both end in the
  first-post fallback unless a post has id 0.

## Model

| member | source | states |
|---|---|---|
| `Text.EscapeHtml` | script.js:175 | the output contains no `<`; every `&` in it starts `&amp;` or `&lt;`; unescaping gives the input back, so every other character is kept in order; input free of `&` and `<` is returned unchanged; a missing or empty input gives `""` |
| `Text.ReplaceAll` | script.js:175 | on a one-character text, the character becomes `rep` when it is `c` and stays otherwise; none of `c` is left when `rep` does not contain it; text without `c` is unchanged |
| `Text.ReplaceAllAppend` | script.js:175 | replacing in a concatenation is concatenating the replacements, so with the one-character case each `c` becomes `rep` and every other character stays, in order |
| `Text.TwoPassIsEachChar` | script.js:175 | the `&` pass followed by the `<` pass equals escaping each character on its own (the first pass introduces no `<`) |
| `Text.EscapeEachIsSafe` | script.js:175 | the per-character escape leaves no `<`, and each `&` it leaves begins an entity |
| `Text.EscapeEachRoundTrip` | script.js:175 | decoding `&amp;` and `&lt;` inverts the per-character escape |
| `Text.StripTags` | script.js:316 | deleting each `<` up to the next `>` leaves no `<` with a `>` after it, only removes characters (a sub-multiset), is the identity on text without `<`, and is the identity on text without `>`, where no tag can close and every `<` is kept |
| `Text.StripTagsLeadingTag` | script.js:316 | a complete leading tag is deleted with nothing put in its place |
| `Text.StripTagsLeadingChar` | script.js:316 | a leading character other than `<` is kept |
| `Text.IsSpace` | script.js:316 | `\s` never matches `<`, `>` or `&`, and on ASCII it is exactly space, tab, line feed, vertical tab, form feed and carriage return |
| `Text.Split` | script.js:316 | `split(/\s+/)` yields at least one piece, no piece contains whitespace, and its non-empty pieces are exactly the maximal runs of non-whitespace of the text, in order |
| `Text.NonEmptyPieces` | script.js:316 | `filter(Boolean)`: the non-empty pieces, in order |
| `Text.CountNonEmpty` | script.js:316 | `filter(Boolean).length` is the number of non-empty pieces, never more than the number of pieces |
| `Text.RunsOf` | script.js:316 | the runs of non-whitespace from a position are as many as the run starts from it |
| `Text.StripWords` | script.js:316 | the word count equals the number of maximal runs of non-whitespace left after stripping tags; missing or empty input gives 0 |
| `Text.SplitPiecesAreRuns` | script.js:316 | from any position that follows whitespace, the non-empty pieces of the split are exactly the runs of non-whitespace, in order |
| `Text.SplitCountsRuns` | script.js:316 | from any position that follows whitespace, the split has one non-empty piece per run of non-whitespace |
| `Text.AdjacentParagraphsAreOneWord` | script.js:316 | two one-letter paragraphs with no whitespace between them, as in `<p>a</p><p>b</p>`, count as one word |
| `Text.Trim` | script.js:285-286 | the result is empty exactly when the input is all whitespace, otherwise it neither starts nor ends with whitespace, and it is a slice of the input with only whitespace on either side |
| `Text.TrimIdempotent` | script.js:285-286 | trimming twice is trimming once |
| `Posts.Loaded` | script.js:160-173 | a successful load gives the parsed array; a failed one gives exactly the two fallback posts |
| `Posts.Insert` | script.js:179 | inserting adds exactly one post to the multiset and keeps newest-first order |
| `Posts.SortByDate` | script.js:179 | the sorted sequence is a permutation of the posts and its dates never increase |
| `Posts.InsertWithDate` | script.js:179 | insertion places the new post before all others of its date and keeps their order |
| `Posts.SortIsStable` | script.js:179 | for every date, the posts with that date appear in the sorted sequence in their original order |
| `Posts.LatestIndex` | script.js:179-180 | the reference scan finds an index whose date is at least every post's date and later than every earlier post's date |
| `Posts.Featured` | script.js:178-180 | there is a featured post exactly when there are posts |
| `Posts.FeaturedIsFirstLatest` | script.js:179-180 | the featured post is the earliest post, in collection order, among those holding the latest date |
| `Posts.FeaturedIsLatest` | script.js:179-180 | the featured post's date is at least every post's date, and it occurs at an index before which every date is strictly earlier |
| `Posts.SliceTo` | script.js:198 | `slice(0, end)` is a prefix of length min(end, length) for an end that is not negative, and counts from the back for a negative end |
| `Posts.Grid` | script.js:197-198 | the grid is a prefix of the posts sorted newest first, never longer than the collection, of length min(count, the number of posts) for a count that is not negative |
| `Posts.GridIsNewestPrefix` | script.js:197-198 | for a visible count that is not negative, the grid is the prefix of the sorted sequence of length min(count, the number of posts), ordered newest first and drawn from the posts; it holds every post once the count reaches the number of posts |
| `Posts.CardOf` | script.js:200-212 | a card's title and excerpt are escaped (no `<`, `&` only in entities) and unescape to the post's own text; id and thumbnail are the post's own |
| `Posts.FeaturedLabel` | script.js:184 | the label is the first tag unless tags are missing or the first is empty, then "Featured" |
| `Posts.FeaturedCardOf` | script.js:177-192 | there is a featured card exactly when there are posts; its label, title and excerpt are escaped and unescape to the featured post's label, title and excerpt; its id and thumbnail are the featured post's |
| `Posts.NextVisible` | script.js:219-221 | one "load more" sets the count to old + 3 when that fits, else to the number of posts; the result never exceeds the number of posts and is not negative when the old count was not |
| `Posts.RepeatedLoadMore` | script.js:219-221 | after k ≥ 1 presses the count is min(start + 3k, the number of posts) |
| `Posts.Session.constructor` | script.js:29-30 | the session starts with no posts and a visible count of 6, not clamped |
| `Posts.Session.FetchPosts` | script.js:160-173 | the session's posts become the result of the load, or the fallback on failure; the visible count stays non-negative |
| `Posts.Session.LoadMore` | script.js:219-223 | the visible count becomes min(old + 3, the number of posts) and stays non-negative; nothing else changes |
| `Posts.Session.RenderPosts` | script.js:194-216 | one card per grid post, min(count, the number of posts) of them, card i built from the i-th newest post, every title and excerpt escaped |
| `Detail.FindFrom` | script.js:235 | the lookup finds the first index whose id equals the requested one, and none when no id matches or the request is NaN |
| `Detail.Resolve` | script.js:235-239 | nothing exactly when there are no posts; the first post with the requested id when one exists; otherwise the first post; the result is always one of the posts |
| `Detail.PrimaryImage` | script.js:244 | the hero image is the first image when it is present and non-empty, otherwise the thumbnail |
| `Detail.Gallery` | script.js:246 | the gallery is the first min(6, the number of images) images, in order |
| `Detail.TagLine` | script.js:243 | one hashtag per tag, in order, each `#` followed by the escaped tag |
| `Detail.DetailOf` | script.js:235-259 | the placeholder exactly when there are no posts; otherwise the article of the resolved post, with escaped title and author, the tag line of its tags, the hero image, the gallery, title length, word count of the stripped content, image count, and comments rendered for that post's id |
| `Detail.PostsForPage` | script.js:232-234 | posts already held are kept; with none, the page uses the result of the load; the page has no posts exactly when none were held and the load gave an empty array |
| `Detail.NotFoundOnlyForEmptyCollection` | script.js:232-239 | the placeholder appears exactly when the session had no posts and posts.json loaded as an empty array |
| `Detail.UnknownIdShowsFirstPost` | script.js:235 | an id no post carries (or NaN) shows the first post, and its comments, instead of an error |
| `Detail.RenderPostPage` | script.js:226-259 | posts are loaded first only when the session has none; the view is the one built from the resulting posts; the visible count stays non-negative |
| `Comments.NatToDecimal` | script.js:269 | the decimal form of a natural number is non-empty, made of digits, and starts with `0` only for 0 |
| `Comments.NatToDecimalRoundTrip` | script.js:269 | the decimal form reads back as the number |
| `Comments.IntToDecimal` | script.js:269 | the decimal form of an integer is non-empty and starts with `-` exactly when the integer is negative |
| `Comments.IntToDecimalDigits` | script.js:269 | the decimal form of an integer is canonical: after an optional `-` come digits with no leading zero, and zero is written `0` |
| `Comments.DecimalPositive` | script.js:269 | a digit string without a leading zero has a positive value |
| `Comments.CanonicalDigitsUnique` | script.js:269 | a digit string without a leading zero is the decimal form of its own value |
| `Comments.DecimalTextUnique` | script.js:269 | the only canonical decimal text that reads back as an integer is that integer's decimal form |
| `Comments.IntToDecimalRoundTrip` | script.js:269 | the decimal form of any integer, sign included, reads back as the integer |
| `Comments.StorageKey` | script.js:269 | the key starts with `bts_comments_`, and the rest of it is canonical decimal that reads back as the post id |
| `Comments.StorageKeyUnique` | script.js:269 | any key made of `bts_comments_` and canonical decimal that reads back as the id is exactly that post's key, so the key the browser writes is fixed |
| `Comments.StorageKeyInjective` | script.js:269 | two posts share a key exactly when they are the same post |
| `Comments.LogOf` | script.js:270-271 | the log is what is stored under the key, or empty when nothing is |
| `Comments.OtherLogsUnaffected` | script.js:290-294 | writing or removing one post's log leaves every other post's log as it was |
| `Comments.DisplayName` | script.js:285 | the name is the trimmed input, or "Anonymous" when that is blank; never empty |
| `Comments.NewComment` | script.js:285-288 | no comment exactly when the message is blank after trimming; otherwise its message is the trimmed message (non-empty, without surrounding whitespace), its name the display name, its id and time the given clock values |
| `Comments.Submitted` | script.js:287-289 | a blank message leaves the log unchanged; otherwise the log grows by one, the new comment first and the old log after it |
| `Comments.TwoSubmissionsNewestFirst` | script.js:285-289 | "Ana"/"Hello" then a blank name with "World" gives [World by Anonymous, Hello by Ana] |
| `Comments.CommentPanel.constructor` | script.js:269-271 | opening the panel reads the post's log back from storage |
| `Comments.CommentPanel.Submit` | script.js:283-293 | the in-memory log becomes the submitted log; a blank message leaves storage unchanged, otherwise the whole log is stored under the post's key and no other key changes; memory and storage stay equal |
| `Comments.CommentPanel.Clear` | script.js:294 | with confirmation the log becomes empty and its key is removed, other keys untouched; without it nothing changes |
| `Comments.CommentSession` | script.js:266-294 | on a post without comments, two submissions around a blank one are listed newest first by a freshly opened panel, and a confirmed clear leaves the key absent |

## Left out

- DOM writes (`innerHTML`, `appendChild`, `classList`) and template assembly: only the data each template is built from is modelled.
- The network fetch of posts.json (script.js:160-173) is asynchronous I/O. Its outcome, fetch and parse together, is a parameter, and the warning it logs is not modelled.
- Video crossfade (script.js:51-100), canvas particles (script.js:103-143), the theme toggle (script.js:33-48), the scroll-reveal observer, the lightbox and the share buttons: these are timers, media, floating-point motion, randomness and browser UI, with no data the core derives.
- `Date` parsing: post dates are integer keys, so the comparator's NaN on an invalid date is not modelled. The escaped date text on grid cards and in the meta line is not part of the card data.
- `Date.now()`, `toISOString` and `toLocaleString`: the clock values are parameters, and the rendered comment list (escaped name and message, localized time) is not modelled.
- `JSON.stringify`/`JSON.parse` of the comment log: storage holds the sequence itself, so the uncaught parse error on malformed stored data is not modelled.
- Concurrent writes to the same log from other tabs (last writer wins) are not modelled; the panel is the only writer.
- Text.EscapeHtml: makes no claim about attribute contexts, because `"` and `>` are not escaped and the `alt` attributes remain open to a `"`. `toString()` of non-string inputs is not modelled; every input here is a string.
- Detail.DetailOf: the title length counts Unicode scalar values, while JavaScript's `length` counts UTF-16 code units, so the two differ for characters outside the Basic Multilingual Plane.
- Text.IsSpace: is the ECMAScript whitespace set at one Unicode version. Lone surrogates, which JavaScript strings can hold, are not characters here.
- Comments.StorageKey: writes integer ids in plain decimal. JavaScript switches to exponent notation at 10^21 and above, and non-integer ids are not modelled.
- The order in which JavaScript's sort compares elements is not modelled: `SortByDate` is an insertion sort. Any stable sort by the same integer keys gives the same result.
