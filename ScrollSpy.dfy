/**
 * The scroll spy of src/composables/useScrollSpy.ts: it tracks which user
 * message is in view. The platform's IntersectionObserver is abstracted to the
 * set of elements it watches, compared by identity; the batches it delivers are
 * given as sequences of entries, in the order the platform supplies them.
 */
module ScrollSpy {
  import opened Wrappers
  import Format

  /** Default `maxLength` of the scroll spy's own `truncateText`. */
  const SnippetMaxLength := 40

  /**
   * A message element, known by its identity like a DOM node, with the parts the
   * scroll spy reads: `data-role`, `data-message-id` and `textContent`.
   */
  class Element {
    const role: Option<string>
    const messageId: Option<string>
    const textContent: Option<string>

    constructor (role: Option<string>, messageId: Option<string>, textContent: Option<string>)
      ensures this.role == role && this.messageId == messageId && this.textContent == textContent
    {
      this.role := role;
      this.messageId := messageId;
      this.textContent := textContent;
    }
  }

  /** One IntersectionObserver entry. */
  datatype Entry = Entry(target: Element, isIntersecting: bool)

  /** `currentMessageId` and `currentMessageContent`. */
  datatype Tracked = Tracked(id: Option<string>, content: string)

  /** The snippet shown for a message: its text (`""` when null), truncated to 40 characters. */
  function Snippet(textContent: Option<string>): (r: string)
    ensures |r| <= SnippetMaxLength + |Format.Ellipsis|
    ensures textContent.None? ==> r == ""
    ensures textContent.Some? && |textContent.value| <= SnippetMaxLength ==> r == textContent.value
    ensures textContent.Some? && |textContent.value| > SnippetMaxLength ==>
      r == textContent.value[..SnippetMaxLength] + Format.Ellipsis
  {
    var text := if textContent.Some? then textContent.value else "";
    Format.TruncateText(text, SnippetMaxLength)
  }

  /** An entry that moves the tracker: intersecting, `data-role="user"`, and a non-empty message id. */
  predicate Qualifies(e: Entry) {
    e.isIntersecting && e.target.role == Some("user") && e.target.messageId.Some? && e.target.messageId.value != ""
  }

  /** What one entry does to the tracked pair. */
  function Step(s: Tracked, e: Entry): (r: Tracked)
    ensures !e.isIntersecting ==> r == s
    ensures r != s ==> Qualifies(e)
  {
    if Qualifies(e) then Tracked(e.target.messageId, Snippet(e.target.textContent)) else s
  }

  /** What a whole batch does: the entries taken in array order. */
  function ApplyBatch(s: Tracked, entries: seq<Entry>): Tracked
    decreases |entries|
  {
    if entries == [] then s
    else Step(ApplyBatch(s, entries[..|entries| - 1]), entries[|entries| - 1])
  }

  /** The entry at `i` qualifies and none after it does. */
  predicate IsLastQualifying(entries: seq<Entry>, i: int) {
    0 <= i < |entries| && Qualifies(entries[i]) &&
    forall j :: i < j < |entries| ==> !Qualifies(entries[j])
  }

  /** A batch with no qualifying entry leaves the tracked pair as it was. */
  lemma {:induction false} ApplyBatchNoneQualify(s: Tracked, entries: seq<Entry>)
    requires forall j :: 0 <= j < |entries| ==> !Qualifies(entries[j])
    ensures ApplyBatch(s, entries) == s
    decreases |entries|
  {
    if entries != [] {
      ApplyBatchNoneQualify(s, entries[..|entries| - 1]);
    }
  }

  /** After a batch, the tracker shows the last qualifying entry: id and snippet. */
  lemma {:induction false} ApplyBatchLastWins(s: Tracked, entries: seq<Entry>, i: int)
    requires IsLastQualifying(entries, i)
    ensures ApplyBatch(s, entries) == Tracked(entries[i].target.messageId, Snippet(entries[i].target.textContent))
    decreases |entries|
  {
    var n := |entries| - 1;
    if i < n {
      ApplyBatchLastWins(s, entries[..n], i);
    }
  }

  /** The last qualifying entry, searched from the end of the batch. */
  function LastQualifying(entries: seq<Entry>): (r: Option<nat>)
    ensures r.Some? ==> IsLastQualifying(entries, r.value)
    ensures r.None? ==> forall j :: 0 <= j < |entries| ==> !Qualifies(entries[j])
    decreases |entries|
  {
    if entries == [] then None
    else if Qualifies(entries[|entries| - 1]) then Some(|entries| - 1)
    else LastQualifying(entries[..|entries| - 1])
  }

  /** The outcome of a batch, stated without the fold. */
  lemma ApplyBatchIsLastQualifying(s: Tracked, entries: seq<Entry>)
    ensures LastQualifying(entries).None? ==> ApplyBatch(s, entries) == s
    ensures LastQualifying(entries).Some? ==>
      var e := entries[LastQualifying(entries).value];
      ApplyBatch(s, entries) == Tracked(e.target.messageId, Snippet(e.target.textContent))
  {
    match LastQualifying(entries)
    case None => ApplyBatchNoneQualify(s, entries);
    case Some(i) => ApplyBatchLastWins(s, entries, i);
  }

  class Spy {
    var currentMessageId: Option<string>
    var currentMessageContent: string
    /** `observer`: null, or an observer with the set of elements it watches. */
    var observer: Option<set<Element>>

    constructor ()
      ensures currentMessageId == None && currentMessageContent == ""
      ensures observer == None
    {
      currentMessageId := None;
      currentMessageContent := "";
      observer := None;
    }

    /** `handleIntersection`: the `forEach` over one batch. */
    method HandleIntersection(entries: seq<Entry>)
      modifies this`currentMessageId, this`currentMessageContent
      ensures Tracked(currentMessageId, currentMessageContent)
        == ApplyBatch(Tracked(old(currentMessageId), old(currentMessageContent)), entries)
    {
      ghost var start := Tracked(currentMessageId, currentMessageContent);
      var i := 0;
      while i < |entries|
        invariant 0 <= i <= |entries|
        invariant Tracked(currentMessageId, currentMessageContent) == ApplyBatch(start, entries[..i])
      {
        var entry := entries[i];
        if entry.isIntersecting {
          var element := entry.target;
          if element.role == Some("user") && element.messageId.Some? && element.messageId.value != "" {
            currentMessageId := element.messageId;
            currentMessageContent := Snippet(element.textContent);
          }
        }
        assert entries[..i + 1][..i] == entries[..i];
        i := i + 1;
      }
      assert entries[..i] == entries;
    }

    /** `initObserver`: creates a fresh observer when there is a window. */
    method InitObserver(hasWindow: bool)
      modifies this`observer
      ensures observer == if hasWindow then Some({}) else old(observer)
    {
      if hasWindow {
        observer := Some({});
      }
    }

    /** `observe`: watched from now on, if an observer exists. */
    method Observe(element: Element)
      modifies this`observer
      ensures observer == if old(observer).Some? then Some(old(observer).value + {element}) else None
    {
      if observer.Some? {
        observer := Some(observer.value + {element});
      }
    }

    /** `unobserve`: no longer watched, if an observer exists. */
    method Unobserve(element: Element)
      modifies this`observer
      ensures observer == if old(observer).Some? then Some(old(observer).value - {element}) else None
    {
      if observer.Some? {
        observer := Some(observer.value - {element});
      }
    }

    /** `cleanup`: disconnect and drop the observer; a second call finds none and does nothing. */
    method Cleanup()
      modifies this`observer
      ensures observer == None
    {
      if observer.Some? {
        observer := None;
      }
    }
  }
}
