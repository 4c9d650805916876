/**
 * The rolling transcript both transcript hooks keep (src/hooks/useTranscription.js and
 * src/hooks/useSpeechRecognition.js): timestamped fragments, a 60-second window, a stable sort by
 * timestamp and the space-joined text; and the hallucination filter of the Whisper hook.
 */
module Transcript {
  import opened Text

  /** One buffer entry `{ ts, text }`; `ts` is a `Date.now()` reading in milliseconds. */
  datatype Fragment = Fragment(ts: int, text: string)

  const RollingWindowMs: int := 60000

  predicate Young(f: Fragment, now: int) {
    now - f.ts < RollingWindowMs
  }

  /** `trimBuffer`: `filter((e) => now - e.ts < ROLLING_WINDOW_MS)`. */
  function TrimWindow(buffer: seq<Fragment>, now: int): (r: seq<Fragment>)
    ensures |r| <= |buffer|
    ensures forall f :: f in r <==> f in buffer && Young(f, now)
  {
    if buffer == [] then []
    else
      var rest := TrimWindow(buffer[..|buffer| - 1], now);
      var last := buffer[|buffer| - 1];
      assert buffer == buffer[..|buffer| - 1] + [last];
      if Young(last, now) then rest + [last] else rest
  }

  /** The window filter works fragment by fragment, so the kept entries stay in their order. */
  lemma {:induction false} TrimWindowAppend(a: seq<Fragment>, b: seq<Fragment>, now: int)
    ensures TrimWindow(a + b, now) == TrimWindow(a, now) + TrimWindow(b, now)
    decreases |b|
  {
    if b == [] {
      assert a + b == a;
    } else {
      assert (a + b)[..|a + b| - 1] == a + b[..|b| - 1];
      TrimWindowAppend(a, b[..|b| - 1], now);
    }
  }

  /** An entry inside the window is kept and one outside is dropped: trimming a single entry. */
  lemma SingleEntryWindow(f: Fragment, now: int)
    ensures TrimWindow([f], now) == if Young(f, now) then [f] else []
  {
    assert [f][..0] == [];
  }

  /** A buffer with nothing older than the window is left unchanged. */
  lemma {:induction false} TrimWindowKeepsYoungBuffer(buffer: seq<Fragment>, now: int)
    requires forall i :: 0 <= i < |buffer| ==> Young(buffer[i], now)
    ensures TrimWindow(buffer, now) == buffer
  {
    if buffer != [] {
      var init, last := buffer[..|buffer| - 1], buffer[|buffer| - 1];
      assert forall i :: 0 <= i < |init| ==> init[i] == buffer[i];
      TrimWindowKeepsYoungBuffer(init, now);
      assert Young(last, now);
      assert buffer == init + [last];
    }
  }

  /** Trimming twice at the same time is trimming once. */
  lemma TrimWindowIdempotent(buffer: seq<Fragment>, now: int)
    ensures TrimWindow(TrimWindow(buffer, now), now) == TrimWindow(buffer, now)
  {
    var r := TrimWindow(buffer, now);
    assert forall i :: 0 <= i < |r| ==> r[i] in r;
    TrimWindowKeepsYoungBuffer(r, now);
  }

  // ---------------------------------------------------------------- sorting by timestamp

  predicate SortedByTs(s: seq<Fragment>) {
    forall i, j :: 0 <= i < j < |s| ==> s[i].ts <= s[j].ts
  }

  /** Place `f` after every entry whose timestamp is not later than its own. */
  function Insert(s: seq<Fragment>, f: Fragment): (r: seq<Fragment>)
    ensures |r| == |s| + 1
  {
    if s == [] || s[|s| - 1].ts <= f.ts then s + [f]
    else Insert(s[..|s| - 1], f) + [s[|s| - 1]]
  }

  lemma {:induction false} InsertPermutes(s: seq<Fragment>, f: Fragment)
    ensures multiset(Insert(s, f)) == multiset(s) + multiset{f}
    decreases |s|
  {
    if !(s == [] || s[|s| - 1].ts <= f.ts) {
      var init := s[..|s| - 1];
      assert s == init + [s[|s| - 1]];
      InsertPermutes(init, f);
    }
  }

  lemma {:induction false} InsertSorted(s: seq<Fragment>, f: Fragment)
    requires SortedByTs(s)
    ensures SortedByTs(Insert(s, f))
    decreases |s|
  {
    if !(s == [] || s[|s| - 1].ts <= f.ts) {
      var init, last := s[..|s| - 1], s[|s| - 1];
      assert s == init + [last];
      InsertSorted(init, f);
      InsertPermutes(init, f);
      var r := Insert(init, f);
      forall k | 0 <= k < |r| ensures r[k].ts <= last.ts {
        assert r[k] in multiset(r);
        assert r[k] in multiset(init) || r[k] == f;
      }
    }
  }

  /**
   * `sort((a, b) => a.ts - b.ts)`, which is stable: an insertion sort that takes the entries in order
   * and puts each after the equal timestamps already placed.
   */
  function SortByTs(s: seq<Fragment>): (r: seq<Fragment>)
    ensures |r| == |s|
    ensures multiset(r) == multiset(s)
    ensures SortedByTs(r)
  {
    if s == [] then []
    else
      var init, last := s[..|s| - 1], s[|s| - 1];
      assert s == init + [last];
      var sorted := SortByTs(init);
      InsertPermutes(sorted, last);
      InsertSorted(sorted, last);
      Insert(sorted, last)
  }

  /** The entries with timestamp `t`, in order. */
  function WithTs(s: seq<Fragment>, t: int): seq<Fragment> {
    if s == [] then []
    else WithTs(s[..|s| - 1], t) + (if s[|s| - 1].ts == t then [s[|s| - 1]] else [])
  }

  lemma {:induction false} WithTsAppend(a: seq<Fragment>, b: seq<Fragment>, t: int)
    ensures WithTs(a + b, t) == WithTs(a, t) + WithTs(b, t)
    decreases |b|
  {
    if b == [] {
      assert a + b == a;
    } else {
      assert (a + b)[..|a + b| - 1] == a + b[..|b| - 1];
      WithTsAppend(a, b[..|b| - 1], t);
    }
  }

  /** The entries of a single fragment with timestamp `t`. */
  lemma WithTsSingle(f: Fragment, t: int)
    ensures WithTs([f], t) == if f.ts == t then [f] else []
  {
    assert [f][..0] == [];
  }

  lemma {:induction false} InsertStable(s: seq<Fragment>, f: Fragment, t: int)
    ensures WithTs(Insert(s, f), t) == WithTs(s, t) + WithTs([f], t)
    decreases |s|
  {
    if s == [] || s[|s| - 1].ts <= f.ts {
      WithTsAppend(s, [f], t);
    } else {
      InsertStable(s[..|s| - 1], f, t);
      InsertStableStep(s, f, t);
    }
  }

  /** The inductive step of `InsertStable`: `f` moves in front of a later last entry. */
  lemma InsertStableStep(s: seq<Fragment>, f: Fragment, t: int)
    requires s != [] && s[|s| - 1].ts > f.ts
    requires WithTs(Insert(s[..|s| - 1], f), t) == WithTs(s[..|s| - 1], t) + WithTs([f], t)
    ensures WithTs(Insert(s, f), t) == WithTs(s, t) + WithTs([f], t)
  {
    var init, last := s[..|s| - 1], s[|s| - 1];
    var r := Insert(init, f);
    assert Insert(s, f) == r + [last];
    WithTsAppend(r, [last], t);
    WithTsSingle(f, t);
    WithTsSingle(last, t);
    var wi, wf, wl := WithTs(init, t), WithTs([f], t), WithTs([last], t);
    assert WithTs(s, t) == wi + wl;
    assert WithTs(Insert(s, f), t) == wi + wf + wl;
    SwapWithEmpty(wi, wf, wl);
  }

  /** Two pieces of which one is empty can be swapped. */
  lemma SwapWithEmpty(a: seq<Fragment>, b: seq<Fragment>, c: seq<Fragment>)
    requires b == [] || c == []
    ensures a + b + c == a + c + b
  {
    if b == [] {
      assert a + b == a && a + c + b == a + c;
    } else {
      assert a + b + c == a + b && a + c == a;
    }
  }

  /** The sort is stable: entries with the same timestamp keep their relative order. */
  lemma {:induction false} SortByTsStable(s: seq<Fragment>, t: int)
    ensures WithTs(SortByTs(s), t) == WithTs(s, t)
    decreases |s|
  {
    if s != [] {
      var init, last := s[..|s| - 1], s[|s| - 1];
      assert s == init + [last];
      var sortedInit := SortByTs(init);
      assert SortByTs(s) == Insert(sortedInit, last);
      SortByTsStable(init, t);
      InsertStable(sortedInit, last, t);
      assert WithTs(SortByTs(s), t) == WithTs(init, t) + WithTs([last], t);
      WithTsAppend(init, [last], t);
    }
  }

  /** A buffer already in timestamp order (the usual case: pushed with a clock reading) is left as it is. */
  lemma {:induction false} SortByTsOfSorted(s: seq<Fragment>)
    requires SortedByTs(s)
    ensures SortByTs(s) == s
    decreases |s|
  {
    if s != [] {
      var init := s[..|s| - 1];
      assert SortedByTs(init);
      SortByTsOfSorted(init);
      assert s == init + [s[|s| - 1]];
    }
  }

  // ---------------------------------------------------------------- the transcript text

  /** `.map((e) => e.text).filter(Boolean)`. */
  function NonEmptyTexts(s: seq<Fragment>): (r: seq<string>)
    ensures forall k :: 0 <= k < |r| ==> r[k] != []
    ensures |r| <= |s|
  {
    if s == [] then []
    else NonEmptyTexts(s[..|s| - 1]) + (if s[|s| - 1].text == [] then [] else [s[|s| - 1].text])
  }

  /** Every non-empty text of the buffer is one of the pieces. */
  lemma {:induction false} NonEmptyTextsHas(s: seq<Fragment>, i: nat)
    requires i < |s| && s[i].text != []
    ensures s[i].text in NonEmptyTexts(s)
    decreases |s|
  {
    if i < |s| - 1 {
      NonEmptyTextsHas(s[..|s| - 1], i);
    }
  }

  /** The transcript: the fragments ordered by timestamp, empties dropped, joined by single spaces. */
  function Combined(buffer: seq<Fragment>): string {
    Join(NonEmptyTexts(SortByTs(buffer)), " ")
  }

  /** Every non-empty fragment text appears in the transcript. */
  lemma CombinedContainsEveryText(buffer: seq<Fragment>, i: nat)
    requires i < |buffer| && buffer[i].text != []
    ensures Contains(Combined(buffer), buffer[i].text)
  {
    var sorted := SortByTs(buffer);
    assert buffer[i] in multiset(sorted);
    var j :| 0 <= j < |sorted| && sorted[j] == buffer[i];
    NonEmptyTextsHas(sorted, j);
    var parts := NonEmptyTexts(sorted);
    var k :| 0 <= k < |parts| && parts[k] == buffer[i].text;
    JoinContainsPart(parts, " ", k);
  }

  /** For a buffer already in timestamp order, the transcript is its non-empty texts in buffer order. */
  lemma CombinedOfSorted(buffer: seq<Fragment>)
    requires SortedByTs(buffer)
    ensures Combined(buffer) == Join(NonEmptyTexts(buffer), " ")
  {
    SortByTsOfSorted(buffer);
  }

  // ---------------------------------------------------------------- isHallucination

  /** `HALLUCINATION_PHRASES` (written as two displays so that the solver can enumerate it). */
  const HallucinationPhrases: set<string> := {
    "thank you", "thank you.", "thanks.", "thanks for watching.", "thanks for watching",
    "thank you for watching.", "thank you for watching",
    "amen.", "amen", "beep.", "beep", "bye.", "bye", "goodbye.", "goodbye",
    "hello?", "hello.", "hello", "hmm.", "hmm", "hm.", "oh.", "ah.", "shh.", "shh"
  } + {
    "you", "you.", ".", "..", "...", "the end.", "the end",
    "subtitles by the amara.org community",
    "thanks for listening.", "thanks for listening",
    "please subscribe.", "please subscribe",
    "like and subscribe.", "like and subscribe",
    "silence.", "silence", "so.", "so", "yeah.", "yeah"
  }

  /**
   * `isHallucination`: the trimmed, lower-cased text is shorter than two UTF-16 code units or a listed
   * phrase.
   */
  predicate IsHallucination(text: string)
    ensures Utf16Length(Trim(text)) < 2 ==> IsHallucination(text)
  {
    var t := ToLower(Trim(text));
    Utf16LengthOfLower(Trim(text));
    Utf16Length(t) < 2 || t in HallucinationPhrases
  }

  /** Anything that is blank or a single code unit after trimming is rejected. */
  lemma ShortTextIsHallucination(text: string)
    requires Utf16Length(Trim(text)) < 2
    ensures IsHallucination(text)
    ensures Trim(text) == "" || |Trim(text)| == 1
  {
  }

  /** A single character outside the Basic Multilingual Plane is two code units long, so it is kept. */
  lemma MusicNoteIsKept()
    ensures !IsHallucination("\U{1F3B5}")
  {
    var s := "\U{1F3B5}";
    TrimUnpadded(s);
    assert Utf16Length(s) == 2;
    assert ToLower(s) == s;
    NoPhraseStartsOutsideAscii(s);
  }

  /** Every listed phrase is ASCII text. */
  lemma NoPhraseStartsOutsideAscii(t: string)
    requires |t| > 0 && t[0] as int >= 128
    ensures t !in HallucinationPhrases
  {
  }

  /** Surrounding white space does not change the verdict. */
  lemma HallucinationIgnoresPadding(text: string)
    ensures IsHallucination(Trim(text)) == IsHallucination(text)
  {
    TrimIdempotent(text);
  }

  /** Past the length test, the verdict is exactly membership in the phrase list. */
  lemma HallucinationIsDenylist(text: string)
    requires Utf16Length(Trim(text)) >= 2
    ensures IsHallucination(text) <==> ToLower(Trim(text)) in HallucinationPhrases
  {
  }

  /** Whisper's stock sign-off, in any letter case and padding, is rejected. */
  lemma ThankYouIsHallucination()
    ensures IsHallucination(" Thank You. ")
  {
    ThankYouTrimmed();
    ThankYouLowered();
    assert "thank you." in HallucinationPhrases;
  }

  lemma ThankYouTrimmed()
    ensures Trim(" Thank You. ") == "Thank You."
  {
    var s := " Thank You. ";
    TrimOnePadding(s);
    assert s[1..|s| - 1] == "Thank You.";
  }

  lemma ThankYouLowered()
    ensures ToLower("Thank You.") == "thank you."
  {
  }

  /** No listed phrase starts with a 'w'. */
  lemma NoPhraseStartsWithW(t: string)
    requires |t| > 0 && t[0] == 'w'
    ensures t !in HallucinationPhrases
  {
  }

  /** A real question is kept. */
  lemma QuestionIsNotHallucination()
    ensures !IsHallucination("What is a closure in JavaScript?")
  {
    var s := "What is a closure in JavaScript?";
    TrimUnpadded(s);
    var t := ToLower(s);
    assert t[0] == 'w';
    NoPhraseStartsWithW(t);
  }
}
