/**
 * The comments panel every screen carries: it lists the comments left on one
 * screen, newest first, and adds and deletes comments through a remote store,
 * falling back to a per-screen entry in the browser's local storage when the
 * remote call fails.
 *
 * Each remote call is an input to the handler that awaits it (its outcome, or
 * whether it failed); local storage is an object holding a map from key to the
 * stored list. Timestamps are the instants they denote, as integers.
 */
module CommentsPanel {
  import opened Wrappers
  import opened Text
  import opened Seqs

  type Timestamp = int

  datatype Comment = Comment(
    screenname: string,
    text: string,
    author: string,
    timestamp: Timestamp,
    /** Set only on comments created while the remote store was unreachable. */
    id: Option<string>)

  const Author: string := "User"
  const KeyPrefix: string := "comments-"

  // ---------------------------------------------------------------------------
  // Storage key
  // ---------------------------------------------------------------------------

  /** `storageKey`: the local-storage entry that backs one screen's comments. */
  function StorageKey(screenName: string): (k: string)
    ensures StartsWith(k, KeyPrefix)
    ensures k[|KeyPrefix|..] == screenName
  {
    KeyPrefix + screenName
  }

  /** Two screens never share a storage entry. */
  lemma StorageKeyInjective(a: string, b: string)
    requires StorageKey(a) == StorageKey(b)
    ensures a == b
  {
    assert a == StorageKey(a)[|KeyPrefix|..];
  }

  // ---------------------------------------------------------------------------
  // Newest-first order
  // ---------------------------------------------------------------------------

  ghost predicate NewestFirst(s: seq<Comment>) {
    forall i, j :: 0 <= i < j < |s| ==> s[i].timestamp >= s[j].timestamp
  }

  /** A newest-first list stays newest first without its first comment. */
  lemma TailNewestFirst(s: seq<Comment>)
    requires s != [] && NewestFirst(s)
    ensures NewestFirst(s[1..])
  {
  }

  /** A comment no older than the head of a newest-first list can go in front of it. */
  lemma ConsNewestFirst(x: Comment, s: seq<Comment>)
    requires NewestFirst(s)
    requires s != [] ==> x.timestamp >= s[0].timestamp
    ensures NewestFirst([x] + s)
  {
    var r := [x] + s;
    forall i, j | 0 <= i < j < |r| ensures r[i].timestamp >= r[j].timestamp {
      if i == 0 && j > 1 {
        assert r[1] == s[0] && r[j] == s[j - 1];
      }
    }
  }

  /** Puts `c` in front of the first comment that is not newer than it. */
  function InsertNewestFirst(c: Comment, s: seq<Comment>): (r: seq<Comment>)
    requires NewestFirst(s)
    ensures NewestFirst(r)
    ensures multiset(r) == multiset(s) + multiset{c}
    ensures |r| == |s| + 1 && (r[0] == c || (s != [] && r[0] == s[0]))
    decreases |s|
  {
    if s == [] || c.timestamp >= s[0].timestamp then
      ConsNewestFirst(c, s);
      [c] + s
    else
      TailNewestFirst(s);
      var rest := InsertNewestFirst(c, s[1..]);
      ConsNewestFirst(s[0], rest);
      assert s == [s[0]] + s[1..];
      [s[0]] + rest
  }

  /**
   * `items.sort((a, b) => new Date(b.timestamp) - new Date(a.timestamp))`: a
   * stable sort, newest first, that neither loses nor adds a comment.
   */
  function SortNewestFirst(s: seq<Comment>): (r: seq<Comment>)
    ensures NewestFirst(r)
    ensures multiset(r) == multiset(s)
    decreases |s|
  {
    if s == [] then [] else
      assert s == [s[0]] + s[1..];
      InsertNewestFirst(s[0], SortNewestFirst(s[1..]))
  }

  function WithTimestamp(t: Timestamp): Comment -> bool {
    (c: Comment) => c.timestamp == t
  }

  /**
   * Putting a comment in front of two lists whose tie-filters differ by `c`
   * keeps that difference, when the comment's timestamp is not `c`'s.
   */
  lemma TiesWithNewerHead(t: Timestamp, c: Comment, x: Comment, rest: seq<Comment>, tail: seq<Comment>)
    requires x.timestamp != c.timestamp
    requires Filter(WithTimestamp(t), rest) == (if c.timestamp == t then [c] else []) + Filter(WithTimestamp(t), tail)
    ensures Filter(WithTimestamp(t), [x] + rest)
         == (if c.timestamp == t then [c] else []) + Filter(WithTimestamp(t), [x] + tail)
  {
    if x.timestamp == t {
      assert WithTimestamp(t)(x);
      FilterConsKept(WithTimestamp(t), x, rest);
      FilterConsKept(WithTimestamp(t), x, tail);
      assert Filter(WithTimestamp(t), rest) == Filter(WithTimestamp(t), tail);
    } else {
      assert !WithTimestamp(t)(x);
      FilterConsDropped(WithTimestamp(t), x, rest);
      FilterConsDropped(WithTimestamp(t), x, tail);
    }
  }

  lemma {:induction false} InsertKeepsTies(t: Timestamp, c: Comment, s: seq<Comment>)
    requires NewestFirst(s)
    ensures Filter(WithTimestamp(t), InsertNewestFirst(c, s))
         == (if c.timestamp == t then [c] else []) + Filter(WithTimestamp(t), s)
    decreases |s|
  {
    var r := InsertNewestFirst(c, s);
    if s == [] || c.timestamp >= s[0].timestamp {
      assert r == [c] + s;
      if c.timestamp == t {
        assert WithTimestamp(t)(c);
        FilterConsKept(WithTimestamp(t), c, s);
      } else {
        assert !WithTimestamp(t)(c);
        FilterConsDropped(WithTimestamp(t), c, s);
      }
    } else {
      var tail := s[1..];
      var rest := InsertNewestFirst(c, tail);
      assert r == [s[0]] + rest;
      InsertKeepsTies(t, c, tail);
      TiesWithNewerHead(t, c, s[0], rest, tail);
      assert [s[0]] + tail == s;
    }
  }

  /**
   * The sort is stable: comments with equal timestamps come out in the order
   * they came in.
   */
  lemma {:induction false} SortIsStable(t: Timestamp, s: seq<Comment>)
    ensures Filter(WithTimestamp(t), SortNewestFirst(s)) == Filter(WithTimestamp(t), s)
    decreases |s|
  {
    if s != [] {
      SortIsStable(t, s[1..]);
      InsertKeepsTies(t, s[0], SortNewestFirst(s[1..]));
    }
  }

  /** A list already newest first comes out of the sort unchanged. */
  lemma {:induction false} SortKeepsSortedList(s: seq<Comment>)
    requires NewestFirst(s)
    ensures SortNewestFirst(s) == s
    decreases |s|
  {
    if s != [] {
      SortKeepsSortedList(s[1..]);
      assert s == [s[0]] + s[1..];
    }
  }

  // ---------------------------------------------------------------------------
  // Deleting by timestamp
  // ---------------------------------------------------------------------------

  function OtherTimestamp(t: Timestamp): Comment -> bool {
    (c: Comment) => c.timestamp != t
  }

  /** `comments.filter(c => c.timestamp !== comment.timestamp)`. */
  function RemoveByTimestamp(s: seq<Comment>, t: Timestamp): (r: seq<Comment>)
    ensures |r| <= |s|
    ensures forall i :: 0 <= i < |r| ==> r[i] in s && r[i].timestamp != t
    ensures forall i :: 0 <= i < |s| && s[i].timestamp != t ==> s[i] in r
  {
    Filter(OtherTimestamp(t), s)
  }

  /** The comments that survive a delete keep their relative order. */
  lemma RemoveKeepsOrder(a: seq<Comment>, b: seq<Comment>, t: Timestamp)
    ensures RemoveByTimestamp(a + b, t) == RemoveByTimestamp(a, t) + RemoveByTimestamp(b, t)
  {
    FilterConcat(OtherTimestamp(t), a, b);
  }

  /** Deleting a timestamp no comment carries leaves the list as it was. */
  lemma RemoveAbsentIsNoOp(s: seq<Comment>, t: Timestamp)
    requires forall i :: 0 <= i < |s| ==> s[i].timestamp != t
    ensures RemoveByTimestamp(s, t) == s
  {
    FilterKeepsAll(OtherTimestamp(t), s);
  }

  /** Deleting the same comment twice is deleting it once. */
  lemma RemoveIdempotent(s: seq<Comment>, t: Timestamp)
    ensures RemoveByTimestamp(RemoveByTimestamp(s, t), t) == RemoveByTimestamp(s, t)
  {
    FilterIdempotent(OtherTimestamp(t), s);
  }

  // ---------------------------------------------------------------------------
  // Loading
  // ---------------------------------------------------------------------------

  /** What the list query yields: its items (possibly null), or an error with a message. */
  datatype ListOutcome = Listed(items: Option<seq<Comment>>) | ListFailed(message: string)

  /** `Failed to load comments: ${err.message || 'Unknown error'}`. */
  function LoadErrorText(message: string): (r: string)
    ensures StartsWith(r, "Failed to load comments: ")
    ensures message != [] ==> r[|"Failed to load comments: "|..] == message
    ensures message == [] ==> r[|"Failed to load comments: "|..] == "Unknown error"
  {
    "Failed to load comments: " + (if message == [] then "Unknown error" else message)
  }

  /**
   * What the panel's list area shows: a spinner while loading, else the error
   * box when there is an error, else the empty-list notice, else the comments.
   */
  datatype CommentsView = Spinner | ErrorBox(message: string) | NoComments | CommentList(items: seq<Comment>)

  // ---------------------------------------------------------------------------
  // State
  // ---------------------------------------------------------------------------

  /** The browser's local storage, restricted to the comment lists it holds. */
  class LocalStorage {
    var entries: map<string, seq<Comment>>

    constructor (initial: map<string, seq<Comment>>)
      ensures entries == initial
    {
      entries := initial;
    }
  }

  /** The comment a submission sends to the remote store. */
  function NewComment(screenName: string, text: string, now: Timestamp): (c: Comment)
    ensures c.screenname == screenName && c.text == text && c.author == Author
    ensures c.timestamp == now && c.id == None
  {
    Comment(screenName, text, Author, now, None)
  }

  class Panel {
    const screenName: string
    const storage: LocalStorage
    var comments: seq<Comment>
    var newComment: string
    var loading: bool
    var error: Option<string>

    /** The panel as it mounts, before its first load completes. */
    constructor (screenName: string, storage: LocalStorage)
      ensures this.screenName == screenName && this.storage == storage
      ensures comments == [] && newComment == [] && loading && error == None
    {
      this.screenName := screenName;
      this.storage := storage;
      comments := [];
      newComment := [];
      loading := true;
      error := None;
    }

    function Key(): string {
      StorageKey(screenName)
    }

    /** The list area as rendered: the comments are on screen only when nothing is loading and no error is set. */
    function View(): (v: CommentsView)
      reads this
      ensures v.Spinner? <==> loading
      ensures v.ErrorBox? <==> !loading && error.Some?
      ensures v.ErrorBox? ==> v.message == error.value
      ensures v.NoComments? <==> !loading && error.None? && comments == []
      ensures v.CommentList? <==> !loading && error.None? && comments != []
      ensures v.CommentList? ==> v.items == comments
    {
      if loading then Spinner
      else if error.Some? then ErrorBox(error.value)
      else if comments == [] then NoComments
      else CommentList(comments)
    }

    /** The Add button is enabled exactly when the text box holds something other than white space. */
    function AddEnabled(): (r: bool)
      reads this
      ensures r <==> !IsBlank(newComment)
    {
      TrimEmptyIffBlank(newComment);
      Trim(newComment) != []
    }

    /** The text box's change handler. */
    method ChangeNewComment(text: string)
      modifies this
      ensures newComment == text
      ensures comments == old(comments) && loading == old(loading) && error == old(error)
    {
      newComment := text;
    }

    /**
     * `fetchComments` once the list query has answered. On success the list is
     * the returned items sorted newest first and the error is cleared; on
     * failure the error is set and the list is replaced by the stored one if
     * there is a stored entry, and left as it was otherwise.
     */
    method FetchComments(outcome: ListOutcome)
      modifies this
      ensures !loading
      ensures newComment == old(newComment)
      ensures outcome.Listed? ==>
        comments == SortNewestFirst(outcome.items.GetOr([])) && error == None
      ensures outcome.ListFailed? ==>
        && error == Some(LoadErrorText(outcome.message))
        && comments == (if Key() in storage.entries then storage.entries[Key()] else old(comments))
      ensures outcome.Listed? ==> (View().NoComments? <==> outcome.items.GetOr([]) == [])
      ensures outcome.ListFailed? ==> View() == ErrorBox(LoadErrorText(outcome.message))
    {
      loading := true;
      match outcome {
        case Listed(items) =>
          comments := SortNewestFirst(items.GetOr([]));
          error := None;
        case ListFailed(message) =>
          error := Some(LoadErrorText(message));
          LoadFromLocalStorage();
      }
      loading := false;
    }

    /** `loadFromLocalStorage`: adopts the stored list if this screen has one. */
    method LoadFromLocalStorage()
      modifies this
      ensures comments == if Key() in storage.entries then storage.entries[Key()] else old(comments)
      ensures newComment == old(newComment) && loading == old(loading) && error == old(error)
    {
      var key := Key();
      if key in storage.entries {
        comments := storage.entries[key];
      }
    }

    /**
     * `handleAddComment` once the create call has answered (`remoteOk`).
     * White-space-only text changes nothing. Otherwise the comment sent is
     * built from the untrimmed text, and the text box is cleared; on success
     * the list is left for the subscription to update, and on failure the
     * comment, with a local id, is put in front of the list and the new list
     * is written to this screen's storage entry.
     */
    method AddComment(remoteOk: bool, now: Timestamp, localId: string) returns (sent: Option<Comment>)
      modifies this, storage
      ensures loading == old(loading) && error == old(error)
      ensures IsBlank(old(newComment)) ==>
        && sent == None && newComment == old(newComment)
        && comments == old(comments) && storage.entries == old(storage.entries)
      ensures !IsBlank(old(newComment)) ==>
        && sent == Some(NewComment(screenName, old(newComment), now))
        && newComment == []
      ensures !IsBlank(old(newComment)) && remoteOk ==>
        comments == old(comments) && storage.entries == old(storage.entries)
      ensures !IsBlank(old(newComment)) && !remoteOk ==>
        && comments == [NewComment(screenName, old(newComment), now).(id := Some(localId))] + old(comments)
        && storage.entries == old(storage.entries)[Key() := comments]
    {
      // the handler's `trim()` test is the one that enables the Add button
      if !AddEnabled() {
        return None;
      }
      var comment := NewComment(screenName, newComment, now);
      sent := Some(comment);
      if remoteOk {
        newComment := [];
      } else {
        var withId := comment.(id := Some(localId));
        comments := [withId] + comments;
        storage.entries := storage.entries[Key() := comments];
        newComment := [];
      }
    }

    /**
     * `handleDeleteComment` once the delete call has answered: every comment
     * with the target's timestamp leaves the list; on failure the remaining
     * list is also written to this screen's storage entry.
     */
    method DeleteComment(target: Comment, remoteOk: bool)
      modifies this, storage
      ensures comments == RemoveByTimestamp(old(comments), target.timestamp)
      ensures remoteOk ==> storage.entries == old(storage.entries)
      ensures !remoteOk ==> storage.entries == old(storage.entries)[Key() := comments]
      ensures newComment == old(newComment) && loading == old(loading) && error == old(error)
    {
      comments := RemoveByTimestamp(comments, target.timestamp);
      if !remoteOk {
        storage.entries := storage.entries[Key() := comments];
      }
    }

    /** The subscription's `next` handler: the incoming comment goes in front. */
    method ReceiveCreated(c: Comment)
      modifies this
      ensures comments == [c] + old(comments)
      ensures newComment == old(newComment) && loading == old(loading) && error == old(error)
    {
      comments := [c] + comments;
    }
  }

  /**
   * A comment added while the remote store is unreachable comes back, with the
   * same text and author, into the list of a new panel for the same screen that
   * falls back to local storage because the list query fails too. That panel
   * still has its error set, so what it renders is the error box, not the list.
   */
  method OfflineRoundTrip(storage: LocalStorage, screenName: string, text: string,
                          now: Timestamp, localId: string, message: string)
    returns (reloaded: seq<Comment>, shown: CommentsView)
    requires !IsBlank(text)
    modifies storage
    ensures |reloaded| >= 1
    ensures reloaded[0] == Comment(screenName, text, Author, now, Some(localId))
    ensures shown == ErrorBox(LoadErrorText(message))
  {
    var first := new Panel(screenName, storage);
    first.ChangeNewComment(text);
    var _ := first.AddComment(false, now, localId);
    var second := new Panel(screenName, storage);
    second.FetchComments(ListFailed(message));
    reloaded := second.comments;
    shown := second.View();
  }
}
