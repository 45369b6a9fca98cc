/**
 * The comments panel of the post page (`renderCommentsUI`, script.js:266-295):
 * a newest-first log per post, kept in the browser's key-value storage under a
 * key derived from the post id.
 */
module Comments {
  import opened Wrappers
  import opened Text

  /** A comment; `id` is the `Date.now()` and `time` the ISO timestamp of its creation. */
  datatype Comment = Comment(id: int, name: string, msg: string, time: string)

  /** The key-value store the log is persisted in; it holds each log directly. */
  type Storage = map<string, seq<Comment>>

  const KeyPrefix: string := "bts_comments_"
  const DefaultName: string := "Anonymous"

  // ---------------------------------------------------------------------------
  // Storage keys

  function DigitChar(d: nat): (c: char)
    requires d < 10
    ensures '0' <= c <= '9'
  {
    "0123456789"[d]
  }

  /** The decimal digits of `n`, most significant first, without leading zeros. */
  function NatToDecimal(n: nat): (s: string)
    ensures |s| >= 1
    ensures forall i :: 0 <= i < |s| ==> '0' <= s[i] <= '9'
    ensures s[0] == '0' ==> n == 0
  {
    if n < 10 then [DigitChar(n)] else NatToDecimal(n / 10) + [DigitChar(n % 10)]
  }

  /** An integer as a template literal writes it: its decimal form, `-` in front when negative. */
  function IntToDecimal(n: int): (s: string)
    ensures |s| >= 1
    ensures s[0] == '-' <==> n < 0
  {
    if n < 0 then "-" + NatToDecimal(-n) else NatToDecimal(n)
  }

  /** The value of a string of decimal digits. */
  function DecimalValue(s: string): nat {
    if s == [] then 0
    else
      var c := s[|s| - 1];
      DecimalValue(s[..|s| - 1]) * 10 + (if '0' <= c <= '9' then (c as int) - ('0' as int) else 0)
  }

  /** Reads back what `IntToDecimal` writes. */
  function ParseDecimal(s: string): int {
    if |s| > 0 && s[0] == '-' then 0 - DecimalValue(s[1..]) as int else DecimalValue(s)
  }

  lemma {:induction false} NatToDecimalRoundTrip(n: nat)
    ensures DecimalValue(NatToDecimal(n)) == n
  {
    var s := NatToDecimal(n);
    if n >= 10 {
      NatToDecimalRoundTrip(n / 10);
      assert s[..|s| - 1] == NatToDecimal(n / 10);
      assert s[|s| - 1] == DigitChar(n % 10);
    }
    assert DigitChar(n % 10) as int - '0' as int == n % 10 by {
      assert "0123456789"[n % 10] as int == '0' as int + n % 10;
    }
  }

  /** The decimal form identifies the integer. */
  lemma IntToDecimalRoundTrip(n: int)
    ensures ParseDecimal(IntToDecimal(n)) == n
  {
    if n < 0 {
      var digits := NatToDecimal(-n);
      NatToDecimalRoundTrip(-n);
      assert ("-" + digits)[0] == '-';
      assert ("-" + digits)[1..] == digits;
    } else {
      var digits := NatToDecimal(n);
      NatToDecimalRoundTrip(n);
      assert digits[0] != '-';
    }
  }

  /**
   * `t` is an integer as JavaScript writes it: an optional `-`, then at least one
   * digit, with no leading zero and no `-0` (zero is written `0`).
   */
  predicate CanonicalDecimal(t: string) {
    var d := if |t| > 0 && t[0] == '-' then t[1..] else t;
    |d| >= 1 && (forall i :: 0 <= i < |d| ==> '0' <= d[i] <= '9') && (d[0] == '0' ==> t == "0")
  }

  /** The decimal form of an integer is canonical. */
  lemma IntToDecimalDigits(n: int)
    ensures CanonicalDecimal(IntToDecimal(n))
  {
    var t := IntToDecimal(n);
    if n < 0 {
      assert t[1..] == NatToDecimal(-n);
    } else if n == 0 {
      assert t == "0";
    }
  }

  /** A digit string without a leading zero has a positive value. */
  lemma {:induction false} DecimalPositive(d: string)
    requires |d| >= 1 && (forall i :: 0 <= i < |d| ==> '0' <= d[i] <= '9') && d[0] != '0'
    ensures DecimalValue(d) >= 1
    decreases |d|
  {
    if |d| > 1 {
      DecimalPositive(d[..|d| - 1]);
    }
  }

  /** A digit string without a leading zero is the decimal form of its value. */
  lemma {:induction false} CanonicalDigitsUnique(d: string)
    requires |d| >= 1 && (forall i :: 0 <= i < |d| ==> '0' <= d[i] <= '9')
    requires d[0] == '0' ==> |d| == 1
    ensures NatToDecimal(DecimalValue(d)) == d
    decreases |d|
  {
    var c := d[|d| - 1];
    var k := (c as int) - ('0' as int);
    assert 0 <= k < 10;
    assert DigitChar(k) == c;
    if |d| > 1 {
      var front := d[..|d| - 1];
      DecimalPositive(front);
      CanonicalDigitsUnique(front);
      var v := DecimalValue(d);
      assert v == DecimalValue(front) * 10 + k;
      assert v / 10 == DecimalValue(front) && v % 10 == k;
      assert d == front + [c];
    }
  }

  /** The only canonical decimal text that reads back as `n` is the one `IntToDecimal` writes. */
  lemma {:induction false} DecimalTextUnique(t: string, n: int)
    requires CanonicalDecimal(t) && ParseDecimal(t) == n
    ensures t == IntToDecimal(n)
  {
    if |t| > 0 && t[0] == '-' {
      var d := t[1..];
      assert d[0] != '0' by { assert t != "0"; }
      CanonicalDigitsUnique(d);
      DecimalPositive(d);
      var v := DecimalValue(d);
      assert n == 0 - v as int && n < 0;
      assert IntToDecimal(n) == "-" + NatToDecimal(v);
      assert t == "-" + d;
    } else {
      assert n == DecimalValue(t) && n >= 0;
      CanonicalDigitsUnique(t);
      assert IntToDecimal(n) == NatToDecimal(n);
    }
  }

  /** The key of a post's log, `bts_comments_<postId>` (script.js:269). */
  function StorageKey(postId: int): (key: string)
    ensures KeyPrefix <= key
    ensures ParseDecimal(key[|KeyPrefix|..]) == postId
    ensures CanonicalDecimal(key[|KeyPrefix|..])
  {
    IntToDecimalRoundTrip(postId);
    IntToDecimalDigits(postId);
    assert (KeyPrefix + IntToDecimal(postId))[|KeyPrefix|..] == IntToDecimal(postId);
    KeyPrefix + IntToDecimal(postId)
  }

  /** A key of the browser's form that reads back as `postId` is that post's key: the key is fixed. */
  lemma StorageKeyUnique(key: string, postId: int)
    requires KeyPrefix <= key
    requires CanonicalDecimal(key[|KeyPrefix|..]) && ParseDecimal(key[|KeyPrefix|..]) == postId
    ensures key == StorageKey(postId)
  {
    DecimalTextUnique(key[|KeyPrefix|..], postId);
    assert key == KeyPrefix + key[|KeyPrefix|..];
  }

  /** Distinct posts never share a log. */
  lemma StorageKeyInjective(a: int, b: int)
    ensures StorageKey(a) == StorageKey(b) <==> a == b
  {
  }

  // ---------------------------------------------------------------------------
  // The log

  /** The log stored under `key`: `raw ? JSON.parse(raw) : []` (script.js:270-271). */
  function LogOf(storage: Storage, key: string): (log: seq<Comment>)
    ensures key !in storage ==> log == []
    ensures key in storage ==> log == storage[key]
  {
    if key in storage then storage[key] else []
  }

  /** Writing one post's log leaves every other post's log as it was. */
  lemma OtherLogsUnaffected(storage: Storage, postId: int, other: int, log: seq<Comment>)
    requires postId != other
    ensures LogOf(storage[StorageKey(postId) := log], StorageKey(other)) == LogOf(storage, StorageKey(other))
    ensures LogOf(storage - {StorageKey(postId)}, StorageKey(other)) == LogOf(storage, StorageKey(other))
  {
    StorageKeyInjective(postId, other);
  }

  /** The display name of a submission: the trimmed name, or "Anonymous" when it is blank (script.js:285). */
  function DisplayName(nameInput: string): (name: string)
    ensures name != []
    ensures !AllSpace(nameInput) ==> name == Trim(nameInput)
    ensures AllSpace(nameInput) ==> name == DefaultName
  {
    var t := Trim(nameInput);
    if t == [] then DefaultName else t
  }

  /**
   * The comment a submission creates (script.js:285-288), or none when the
   * message is blank after trimming.
   */
  function NewComment(nameInput: string, msgInput: string, now: int, isoTime: string): (c: Option<Comment>)
    ensures c.None? <==> AllSpace(msgInput)
    ensures c.Some? ==> c.value.msg == Trim(msgInput) && c.value.msg != []
                        && !IsSpace(c.value.msg[0]) && !IsSpace(c.value.msg[|c.value.msg| - 1])
    ensures c.Some? ==> c.value.name == DisplayName(nameInput)
    ensures c.Some? ==> c.value.id == now && c.value.time == isoTime
  {
    var msg := Trim(msgInput);
    if msg == [] then None else Some(Comment(now, DisplayName(nameInput), msg, isoTime))
  }

  /** The log after a submission: the new comment in front, or the log unchanged. */
  function Submitted(log: seq<Comment>, nameInput: string, msgInput: string, now: int, isoTime: string)
    : (r: seq<Comment>)
    ensures AllSpace(msgInput) ==> r == log
    ensures !AllSpace(msgInput) ==> |r| == |log| + 1 && r[1..] == log
                                    && Some(r[0]) == NewComment(nameInput, msgInput, now, isoTime)
  {
    match NewComment(nameInput, msgInput, now, isoTime)
    case None => log
    case Some(c) => [c] + log
  }

  /**
   * Two submissions to an empty log, "Ana"/"Hello" then a blank name with
   * "World", give [World, Hello], newest first.
   */
  lemma TwoSubmissionsNewestFirst(t1: int, iso1: string, t2: int, iso2: string)
    ensures Submitted(Submitted([], "Ana", "Hello", t1, iso1), "", "World", t2, iso2)
            == [Comment(t2, DefaultName, "World", iso2), Comment(t1, "Ana", "Hello", iso1)]
  {
    TrimOfWord("Ana");
    TrimOfWord("Hello");
    TrimOfWord("World");
    assert !AllSpace("Hello") && !AllSpace("World") by {
      assert !IsSpace("Hello"[0]) && !IsSpace("World"[0]);
    }
    assert AllSpace("");
  }

  /** A string with no whitespace at either end trims to itself. */
  lemma TrimOfWord(s: string)
    requires s != [] && !IsSpace(s[0]) && !IsSpace(s[|s| - 1])
    ensures Trim(s) == s
  {
    assert SpaceEnd(s, 0) == 0;
    assert TrailingSpaceLen(s) == 0;
    assert s[0..|s|] == s;
  }

  /**
   * The panel of one post: its key, the in-memory `comments` array and the
   * browser storage it writes through to.
   */
  class CommentPanel {
    const key: string
    var storage: Storage
    var comments: seq<Comment>

    /** The in-memory log is the one persisted under the panel's key. */
    ghost predicate Valid()
      reads this
    {
      comments == LogOf(storage, key)
    }

    /** Opening the panel reads the post's log back from storage (script.js:269-271). */
    constructor (store: Storage, postId: int)
      ensures Valid()
      ensures key == StorageKey(postId) && storage == store
      ensures comments == LogOf(store, StorageKey(postId))
    {
      key := StorageKey(postId);
      storage := store;
      comments := if StorageKey(postId) in store then store[StorageKey(postId)] else [];
    }

    /**
     * The form's submit handler (script.js:283-293): a blank message changes
     * nothing; otherwise the new comment goes in front and the whole log is
     * written back under the key, leaving every other key alone.
     */
    method Submit(nameInput: string, msgInput: string, now: int, isoTime: string)
      requires Valid()
      modifies this`storage, this`comments
      ensures Valid()
      ensures comments == Submitted(old(comments), nameInput, msgInput, now, isoTime)
      ensures AllSpace(msgInput) ==> storage == old(storage)
      ensures !AllSpace(msgInput) ==> storage == old(storage)[key := comments]
    {
      var name := DisplayName(nameInput);
      var msg := Trim(msgInput);
      if msg == [] {
        return;
      }
      var c := Comment(now, name, msg, isoTime);
      comments := [c] + comments;
      storage := storage[key := comments];
    }

    /**
     * The clear button (script.js:294): with confirmation the log is emptied
     * and its key removed; without it nothing changes.
     */
    method Clear(confirmed: bool)
      requires Valid()
      modifies this`storage, this`comments
      ensures Valid()
      ensures confirmed ==> comments == [] && storage == old(storage) - {key}
      ensures !confirmed ==> comments == old(comments) && storage == old(storage)
    {
      if confirmed {
        comments := [];
        storage := storage - {key};
      }
    }
  }

  /**
   * A session on a post without comments: "Ana"/"Hello", then a blank
   * submission, then "World". The panel opened afresh on the resulting storage
   * lists both, newest first, and clearing with confirmation leaves the key
   * absent.
   */
  method CommentSession(store: Storage, postId: int, t1: int, t2: int)
      returns (listed: seq<Comment>, clearedKeyPresent: bool)
    requires StorageKey(postId) !in store
    ensures listed == [Comment(t2, DefaultName, "World", "t2"), Comment(t1, "Ana", "Hello", "t1")]
    ensures !clearedKeyPresent
  {
    var panel := new CommentPanel(store, postId);
    panel.Submit("Ana", "Hello", t1, "t1");
    panel.Submit("", "  ", t1, "t1");
    assert AllSpace("  ");
    panel.Submit("", "World", t2, "t2");
    TwoSubmissionsNewestFirst(t1, "t1", t2, "t2");
    var reopened := new CommentPanel(panel.storage, postId);
    listed := reopened.comments;
    reopened.Clear(true);
    clearedKeyPresent := reopened.key in reopened.storage;
  }
}
