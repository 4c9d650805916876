/**
 * The Web Speech transcript hook (src/hooks/useSpeechRecognition.js). Each result event appends its
 * final phrases to the rolling buffer, rebuilding the transcript after every one; the non-final
 * phrases become the live text; and a single silence timer is (re)armed 2 s after every event.
 * Timers are a pending deadline; `Date.now()` is the parameter `now`.
 */
module SpeechRecognition {
  import opened Wrappers
  import opened Text
  import opened Transcript

  const SilenceDelayMs: int := 2000

  /** One entry of `event.results`: whether it is final, and the transcript of its first alternative. */
  datatype SpeechResult = SpeechResult(isFinal: bool, transcript: string)

  /** The buffer `rebuildTranscript` leaves behind: trimmed to the window, then sorted in place by timestamp. */
  function Rebuilt(buffer: seq<Fragment>, now: int): (r: seq<Fragment>)
    ensures SortedByTs(r)
    ensures multiset(r) == multiset(TrimWindow(buffer, now))
  {
    SortByTs(TrimWindow(buffer, now))
  }

  /** The text `rebuildTranscript` produces from a sorted buffer: its non-empty texts joined by spaces. */
  function TranscriptText(buffer: seq<Fragment>): string {
    Join(NonEmptyTexts(buffer), " ")
  }

  /** `rebuildTranscript` computes exactly the transcript of the window: timestamp order, empties dropped. */
  lemma RebuiltTextIsCombined(buffer: seq<Fragment>, now: int)
    ensures TranscriptText(Rebuilt(buffer, now)) == Combined(TrimWindow(buffer, now))
  {
  }

  /** The phrase a final result contributes: its trimmed transcript, unless that is blank. */
  function FinalPhrase(result: SpeechResult): (r: Option<string>)
    ensures r.Some? ==> r.value != ""
  {
    var text := Trim(result.transcript);
    if result.isFinal && text != "" then Some(text) else None
  }

  /** The final phrases of `results[lo..hi]`, trimmed, in order, blank ones skipped. */
  function Finals(results: seq<SpeechResult>, lo: nat, hi: nat): (r: seq<string>)
    requires lo <= hi <= |results|
    ensures |r| <= hi - lo
    ensures forall k :: 0 <= k < |r| ==> r[k] != ""
    decreases hi
  {
    if hi == lo then []
    else
      var phrase := FinalPhrase(results[hi - 1]);
      Finals(results, lo, hi - 1) + (if phrase.Some? then [phrase.value] else [])
  }

  /** The non-final phrases of `results[lo..hi]`, concatenated in order (`interimText += ...`). */
  function Interim(results: seq<SpeechResult>, lo: nat, hi: nat): (r: string)
    requires lo <= hi <= |results|
    decreases hi
  {
    if hi == lo then ""
    else Interim(results, lo, hi - 1) + (if results[hi - 1].isFinal then "" else results[hi - 1].transcript)
  }

  /** When the last result of the range is not final, the live text ends with its transcript. */
  lemma InterimEndsWithLast(results: seq<SpeechResult>, lo: nat, hi: nat)
    requires lo < hi <= |results| && !results[hi - 1].isFinal
    ensures var r, last := Interim(results, lo, hi), results[hi - 1].transcript;
      |last| <= |r| && r[|r| - |last|..] == last
  {
  }

  /** The buffer after pushing each text with timestamp `now`, rebuilding after every push. */
  function AfterFinals(buffer: seq<Fragment>, texts: seq<string>, now: int): seq<Fragment>
    decreases |texts|
  {
    if texts == [] then buffer
    else Rebuilt(AfterFinals(buffer, texts[..|texts| - 1], now) + [Fragment(now, texts[|texts| - 1])], now)
  }

  /** Every entry of the buffer is non-empty. */
  predicate NonBlank(buffer: seq<Fragment>) {
    forall i :: 0 <= i < |buffer| ==> buffer[i].text != ""
  }

  /** Membership in the rebuilt buffer: young entries of the old buffer, nothing else. */
  lemma RebuiltMembers(buffer: seq<Fragment>, now: int, f: Fragment)
    ensures f in Rebuilt(buffer, now) <==> f in buffer && Young(f, now)
  {
    var r := Rebuilt(buffer, now);
    assert f in r <==> f in multiset(r);
    assert f in TrimWindow(buffer, now) <==> f in multiset(TrimWindow(buffer, now));
  }

  /**
   * After a result event with final phrases, every phrase is in the buffer with the event's timestamp,
   * the buffer is in timestamp order and nothing older than the window survives.
   */
  lemma {:induction false} AfterFinalsKeepsPhrases(buffer: seq<Fragment>, texts: seq<string>, now: int)
    requires texts != []
    ensures SortedByTs(AfterFinals(buffer, texts, now))
    ensures forall f :: f in AfterFinals(buffer, texts, now) ==> Young(f, now)
    ensures forall k :: 0 <= k < |texts| ==> Fragment(now, texts[k]) in AfterFinals(buffer, texts, now)
    decreases |texts|
  {
    var init := texts[..|texts| - 1];
    var before := AfterFinals(buffer, init, now);
    var pushed := before + [Fragment(now, texts[|texts| - 1])];
    var r := AfterFinals(buffer, texts, now);
    assert r == Rebuilt(pushed, now);
    forall f | f in r ensures Young(f, now) {
      RebuiltMembers(pushed, now, f);
    }
    if init != [] {
      AfterFinalsKeepsPhrases(buffer, init, now);
    }
    forall k | 0 <= k < |texts| ensures Fragment(now, texts[k]) in r {
      var f := Fragment(now, texts[k]);
      if k < |texts| - 1 {
        assert init[k] == texts[k];
        assert f in before;
      }
      assert f in pushed;
      RebuiltMembers(pushed, now, f);
    }
  }

  /** Only non-blank phrases are appended, so a buffer without blank entries never gets one. */
  lemma {:induction false} AfterFinalsNonBlank(buffer: seq<Fragment>, texts: seq<string>, now: int)
    requires NonBlank(buffer)
    requires forall k :: 0 <= k < |texts| ==> texts[k] != ""
    ensures NonBlank(AfterFinals(buffer, texts, now))
    decreases |texts|
  {
    if texts != [] {
      var init := texts[..|texts| - 1];
      AfterFinalsNonBlank(buffer, init, now);
      var pushed := AfterFinals(buffer, init, now) + [Fragment(now, texts[|texts| - 1])];
      var r := AfterFinals(buffer, texts, now);
      forall i | 0 <= i < |r| ensures r[i].text != "" {
        assert r[i] in r;
        RebuiltMembers(pushed, now, r[i]);
      }
    }
  }

  /** The live text holds exactly the non-final phrases: with none, it is empty. */
  lemma {:induction false} InterimOfFinals(results: seq<SpeechResult>, lo: nat, hi: nat)
    requires lo <= hi <= |results|
    requires forall k :: lo <= k < hi ==> results[k].isFinal
    ensures Interim(results, lo, hi) == ""
    decreases hi
  {
    if hi > lo {
      InterimOfFinals(results, lo, hi - 1);
    }
  }

  /** One more result extends the phrases by its final phrase, and the buffer by one push and rebuild. */
  lemma FinalsStep(results: seq<SpeechResult>, lo: nat, i: nat, b: seq<Fragment>, now: int)
    requires lo <= i < |results|
    ensures var phrase := FinalPhrase(results[i]);
      var prev := Finals(results, lo, i);
      && Finals(results, lo, i + 1) == prev + (if phrase.Some? then [phrase.value] else [])
      && Interim(results, lo, i + 1) == Interim(results, lo, i) + (if results[i].isFinal then "" else results[i].transcript)
      && (phrase.Some? ==>
           AfterFinals(b, Finals(results, lo, i + 1), now) == Rebuilt(AfterFinals(b, prev, now) + [Fragment(now, phrase.value)], now))
  {
    var phrase := FinalPhrase(results[i]);
    var prev := Finals(results, lo, i);
    if phrase.Some? {
      var texts := prev + [phrase.value];
      assert texts[..|texts| - 1] == prev;
    }
  }

  /** The hook's refs and states. `silenceDeadline` is the pending silence timer, if any. */
  class SpeechRecognitionHook {
    var buffer: seq<Fragment>
    var transcript: string
    var liveText: string
    var isListening: bool
    var recognizerActive: bool
    var stopped: bool
    var silenceDeadline: Option<int>

    constructor ()
      ensures buffer == [] && transcript == "" && liveText == "" && !isListening
      ensures !recognizerActive && !stopped && silenceDeadline == None
    {
      buffer := [];
      transcript := "";
      liveText := "";
      isListening := false;
      recognizerActive := false;
      stopped := false;
      silenceDeadline := None;
    }

    /** `start`: without a speech recogniser nothing happens; otherwise a recogniser is created and listening begins. */
    method Start(supported: bool)
      modifies this`stopped, this`recognizerActive, this`isListening
      ensures !supported ==> stopped == old(stopped) && recognizerActive == old(recognizerActive) && isListening == old(isListening)
      ensures supported ==> !stopped && recognizerActive && isListening
    {
      if supported {
        stopped := false;
        recognizerActive := true;
        isListening := true;
      }
    }

    /** `rebuildTranscript`: trim the window, sort the buffer in place, and set the transcript from it. */
    method RebuildTranscript(now: int) returns (combined: string)
      modifies this`buffer, this`transcript
      ensures buffer == Rebuilt(old(buffer), now)
      ensures combined == transcript == TranscriptText(buffer)
    {
      buffer := SortByTs(TrimWindow(buffer, now));
      combined := Join(NonEmptyTexts(buffer), " ");
      transcript := combined;
    }

    /** One pass of the `onresult` loop: a final phrase is pushed and the transcript rebuilt. */
    method PushFinal(result: SpeechResult, now: int)
      modifies this`buffer, this`transcript
      ensures FinalPhrase(result).None? ==> buffer == old(buffer) && transcript == old(transcript)
      ensures FinalPhrase(result).Some? ==>
        buffer == Rebuilt(old(buffer) + [Fragment(now, FinalPhrase(result).value)], now)
        && transcript == TranscriptText(buffer)
    {
      var phrase := FinalPhrase(result);
      if phrase.Some? {
        buffer := buffer + [Fragment(now, phrase.value)];
        var _ := RebuildTranscript(now);
      }
    }

    /**
     * `recognition.onresult` at time `now`: final phrases from `resultIndex` on are pushed one by one,
     * the others are gathered as live text, and the silence timer is replaced by a fresh one.
     */
    method OnResult(results: seq<SpeechResult>, resultIndex: nat, now: int)
      modifies this`buffer, this`transcript, this`liveText, this`silenceDeadline
      ensures var lo := if resultIndex <= |results| then resultIndex else |results|;
        && buffer == AfterFinals(old(buffer), Finals(results, lo, |results|), now)
        && liveText == Interim(results, lo, |results|)
        && (Finals(results, lo, |results|) == [] ==> transcript == old(transcript))
        && (Finals(results, lo, |results|) != [] ==> transcript == TranscriptText(buffer))
      ensures silenceDeadline == Some(now + SilenceDelayMs)
    {
      var lo := if resultIndex <= |results| then resultIndex else |results|;
      var interimText := "";
      ghost var texts: seq<string> := [];
      ghost var b0 := buffer;
      ghost var t0 := transcript;
      var i := lo;
      while i < |results|
        invariant lo <= i <= |results|
        invariant texts == Finals(results, lo, i)
        invariant interimText == Interim(results, lo, i)
        invariant buffer == AfterFinals(b0, texts, now)
        invariant texts == [] ==> transcript == t0
        invariant texts != [] ==> transcript == TranscriptText(buffer)
      {
        var result := results[i];
        FinalsStep(results, lo, i, b0, now);
        var phrase := FinalPhrase(result);
        PushFinal(result, now);
        if phrase.Some? {
          texts := texts + [phrase.value];
        }
        if !result.isFinal {
          interimText := interimText + result.transcript;
        }
        i := i + 1;
      }
      liveText := interimText;
      silenceDeadline := Some(now + SilenceDelayMs);
    }

    /** The silence timer's callback: it calls `onSilence` once its deadline has passed. */
    method SilenceTimerTick(now: int) returns (fired: bool)
      modifies this`silenceDeadline
      ensures fired <==> old(silenceDeadline).Some? && now >= old(silenceDeadline).value
      ensures silenceDeadline == if fired then None else old(silenceDeadline)
    {
      fired := silenceDeadline.Some? && now >= silenceDeadline.value;
      if fired {
        silenceDeadline := None;
      }
    }

    /** `recognition.onend`: the recogniser restarts itself unless it was stopped. */
    method OnEnd() returns (restart: bool)
      ensures restart == (!stopped && recognizerActive)
    {
      restart := !stopped && recognizerActive;
    }

    /** `stop`: mark stopped, drop the recogniser, cancel the silence timer and stop listening. */
    method Stop()
      modifies this`stopped, this`recognizerActive, this`silenceDeadline, this`isListening
      ensures stopped && !recognizerActive && silenceDeadline == None && !isListening
    {
      stopped := true;
      recognizerActive := false;
      silenceDeadline := None;
      isListening := false;
    }

    /** `wordCount`: the number of white-space separated words of the transcript. */
    function Words(): (n: nat)
      reads this
      ensures n == WordStarts(transcript, true)
    {
      WordCountCountsWordStarts(transcript);
      WordCount(transcript)
    }
  }
}
