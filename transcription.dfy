/**
 * The Whisper transcript hook (src/hooks/useTranscription.js). A chunk handed over by the capture hook
 * is sent to the main process; while that call is outstanding `isTranscribing` is set. The reply is
 * filtered for hallucinations and the accepted text joins the rolling buffer, from which the
 * transcript is rebuilt.
 */
module Transcription {
  import opened Wrappers
  import opened Text
  import opened Json
  import opened Transcript

  /** The text `handleChunk` takes from a reply: a successful reply with truthy data gives its string (or "" if it is not one). */
  function AcceptedText(reply: IpcReply<Json>): (r: Option<string>)
    ensures r.Some? <==> reply.Success? && Truthy(reply.data)
    ensures r.Some? && reply.data.Str? ==> r.value == reply.data.s
    ensures r.Some? && !reply.data.Str? ==> r.value == ""
  {
    match reply
    case Success(d) => if Truthy(d) then Some(if d.Str? then d.s else "") else None
    case Failure(_) => None
  }

  /** The text a reply adds to the buffer: accepted and not a hallucination. */
  function NewText(reply: IpcReply<Json>): Option<string> {
    match AcceptedText(reply)
    case Some(t) => if IsHallucination(t) then None else Some(t)
    case None => None
  }

  /** The buffer after a reply arrives at `now`: the window is trimmed, then the new text (if any) is appended. */
  function ChunkBuffer(buffer: seq<Fragment>, reply: IpcReply<Json>, now: int): (r: seq<Fragment>)
    ensures NewText(reply).None? ==> r == TrimWindow(buffer, now)
    ensures NewText(reply).Some? ==> r == TrimWindow(buffer, now) + [Fragment(now, NewText(reply).value)]
  {
    match NewText(reply)
    case Some(t) => TrimWindow(buffer, now) + [Fragment(now, t)]
    case None => TrimWindow(buffer, now)
  }

  /** No entry of the buffer is a hallucination. */
  predicate Clean(buffer: seq<Fragment>) {
    forall i :: 0 <= i < |buffer| ==> !IsHallucination(buffer[i].text)
  }

  /** Every entry is younger than the window at `now`. */
  predicate AllYoung(buffer: seq<Fragment>, now: int) {
    forall i :: 0 <= i < |buffer| ==> Young(buffer[i], now)
  }

  /** Every entry the window filter keeps comes from the buffer and is young. */
  lemma TrimWindowFrom(buffer: seq<Fragment>, now: int, k: nat)
    requires k < |TrimWindow(buffer, now)|
    ensures exists j :: 0 <= j < |buffer| && buffer[j] == TrimWindow(buffer, now)[k]
    ensures Young(TrimWindow(buffer, now)[k], now)
  {
    assert TrimWindow(buffer, now)[k] in TrimWindow(buffer, now);
  }

  /** Hallucinated text is never appended: a clean buffer stays clean, and everything in it is inside the window. */
  lemma ChunkKeepsBufferClean(buffer: seq<Fragment>, reply: IpcReply<Json>, now: int)
    requires Clean(buffer)
    ensures Clean(ChunkBuffer(buffer, reply, now))
    ensures AllYoung(ChunkBuffer(buffer, reply, now), now)
  {
    var r := ChunkBuffer(buffer, reply, now);
    var kept := TrimWindow(buffer, now);
    forall i | 0 <= i < |r| ensures !IsHallucination(r[i].text) && Young(r[i], now) {
      if i < |kept| {
        TrimWindowFrom(buffer, now, i);
        var j :| 0 <= j < |buffer| && buffer[j] == kept[i];
        assert r[i] == buffer[j];
      }
    }
  }

  /** A reply is added exactly when it succeeds with a string that is not a hallucination. */
  lemma NewTextExactly(reply: IpcReply<Json>)
    ensures NewText(reply).Some? <==>
      reply.Success? && reply.data.Str? && reply.data.s != "" && !IsHallucination(reply.data.s)
    ensures NewText(reply).Some? ==> NewText(reply).value == reply.data.s
  {
    if reply.Success? && Truthy(reply.data) && !reply.data.Str? {
      assert |ToLower(Trim(""))| < 2;
    }
  }

  /** The window filter keeps a timestamp-ordered buffer ordered. */
  lemma {:induction false} TrimWindowSorted(buffer: seq<Fragment>, now: int)
    requires SortedByTs(buffer)
    ensures SortedByTs(TrimWindow(buffer, now))
  {
    if buffer != [] {
      var init := buffer[..|buffer| - 1];
      assert SortedByTs(init);
      TrimWindowSorted(init, now);
      var rest := TrimWindow(init, now);
      forall k | 0 <= k < |rest| ensures rest[k].ts <= buffer[|buffer| - 1].ts {
        assert rest[k] in rest;
      }
    }
  }

  /**
   * With a clock that never goes backwards, the buffer stays in timestamp order, so the transcript is
   * simply the non-empty texts in the order they arrived.
   */
  lemma ChunkKeepsArrivalOrder(buffer: seq<Fragment>, reply: IpcReply<Json>, now: int)
    requires SortedByTs(buffer)
    requires forall i :: 0 <= i < |buffer| ==> buffer[i].ts <= now
    ensures SortedByTs(ChunkBuffer(buffer, reply, now))
    ensures Combined(ChunkBuffer(buffer, reply, now)) == Join(NonEmptyTexts(ChunkBuffer(buffer, reply, now)), " ")
  {
    TrimWindowSorted(buffer, now);
    var kept := TrimWindow(buffer, now);
    forall k | 0 <= k < |kept| ensures kept[k].ts <= now {
      assert kept[k] in kept;
    }
    CombinedOfSorted(ChunkBuffer(buffer, reply, now));
  }

  /** The hook's state: the rolling buffer (a ref), and the `transcript`, `liveText` and `isTranscribing` states. */
  class TranscriptionHook {
    var buffer: seq<Fragment>
    var transcript: string
    var liveText: string
    var isTranscribing: bool

    constructor ()
      ensures buffer == [] && transcript == "" && liveText == "" && !isTranscribing
    {
      buffer := [];
      transcript := "";
      liveText := "";
      isTranscribing := false;
    }

    /** The part of `handleChunk` before its `await`: without the bridge it returns at once, otherwise it marks the hook busy. */
    method BeginChunk(apiAvailable: bool) returns (proceed: bool)
      modifies this`isTranscribing
      ensures proceed == apiAvailable
      ensures isTranscribing == (apiAvailable || old(isTranscribing))
    {
      if !apiAvailable {
        return false;
      }
      isTranscribing := true;
      proceed := true;
    }

    /**
     * The rest of `handleChunk`, when the call settles at `now`: `reply` is `None` when the call itself
     * rejected. The `finally` block lowers `isTranscribing` on every path.
     */
    method FinishChunk(reply: Option<IpcReply<Json>>, now: int)
      modifies this`buffer, this`transcript, this`liveText, this`isTranscribing
      ensures !isTranscribing
      ensures reply.None? ==> buffer == old(buffer) && transcript == old(transcript) && liveText == old(liveText)
      ensures reply.Some? ==> buffer == ChunkBuffer(old(buffer), reply.value, now)
      ensures reply.Some? && NewText(reply.value).None? ==> transcript == old(transcript) && liveText == old(liveText)
      ensures reply.Some? && NewText(reply.value).Some? ==>
        liveText == NewText(reply.value).value && transcript == Combined(buffer)
    {
      if reply.None? {
        isTranscribing := false;
        return;
      }
      buffer := TrimWindow(buffer, now);
      var accepted := AcceptedText(reply.value);
      if accepted.Some? {
        var text := accepted.value;
        assert NewText(reply.value) == if IsHallucination(text) then None else Some(text);
        if IsHallucination(text) {
          isTranscribing := false;
          return;
        }
        buffer := buffer + [Fragment(now, text)];
        liveText := text;
        transcript := Combined(buffer);
      }
      isTranscribing := false;
    }

    /** `wordCount`: the number of white-space separated words of the transcript. */
    function Words(): (n: nat)
      reads this
      ensures n == WordStarts(transcript, true)
    {
      WordCountCountsWordStarts(transcript);
      WordCount(transcript)
    }
  }
}
