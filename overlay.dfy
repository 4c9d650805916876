/**
 * The overlay window (src/components/Overlay.jsx): it shows a loading card while a question is being
 * answered and the answer once it arrives, and hides it again on request or when the auto-dismiss
 * timer runs out. React re-runs the dismiss-timer effect only when `overlayState` or `dismissMs`
 * actually changes; every re-run first clears the pending timer and then arms a fresh one only while
 * the answer is shown. The pending timer is a deadline; `now` is the time of each event.
 */
module Overlay {
  import opened Wrappers
  import opened Text
  import opened Json
  import opened AnswerParsing

  const DefaultDismissMs: int := 30000

  datatype OverlayState = Idle | Loading | ShowingAnswer

  /** `overlayDismissSeconds` as a delay: none at all for zero or fewer seconds, otherwise in milliseconds. */
  function DismissMsOf(seconds: int): (ms: int)
    ensures ms >= 0
    ensures ms == 0 <==> seconds <= 0
    ensures ms > 0 ==> ms % 1000 == 0 && ms / 1000 == seconds
  {
    if seconds <= 0 then 0 else seconds * 1000
  }

  /** The parts the copy shortcut puts on the clipboard: the question, the answer and the code that are truthy, in that order. */
  function CopyParts(p: Parsed): (parts: seq<Json>)
    ensures |parts| == (if Truthy(p.question) then 1 else 0) + (if Truthy(p.answer) then 1 else 0)
                       + (if Truthy(p.codeSnippet) then 1 else 0)
    ensures forall i :: 0 <= i < |parts| ==> Truthy(parts[i])
    ensures Truthy(p.question) ==> parts[0] == p.question
    ensures Truthy(p.answer) ==> parts[if Truthy(p.question) then 1 else 0] == p.answer
    ensures Truthy(p.codeSnippet) ==> parts[|parts| - 1] == p.codeSnippet
  {
    (if Truthy(p.question) then [p.question] else [])
    + (if Truthy(p.answer) then [p.answer] else [])
    + (if Truthy(p.codeSnippet) then [p.codeSnippet] else [])
  }

  /** The clipboard text of the copy shortcut, when there is an answer with an answer or a question. */
  function CopyText(answer: Option<Parsed>): (r: Option<string>)
    ensures r.Some? <==> answer.Some? && (Truthy(answer.value.answer) || Truthy(answer.value.question))
  {
    match answer
    case Some(p) =>
      if Truthy(p.answer) || Truthy(p.question) then
        var parts := CopyParts(p);
        Some(Join(seq(|parts|, i requires 0 <= i < |parts| => ToText(parts[i])), "\n\n"))
      else None
    case None => None
  }

  /** For an answer with a string question and answer and no code, the copied text is the two joined by a blank line. */
  lemma CopyTextCases(answer: Option<Parsed>)
    ensures answer.Some? && answer.value.question.Str? && answer.value.answer.Str? && !Truthy(answer.value.codeSnippet)
            && answer.value.question.s != "" && answer.value.answer.s != "" ==>
      CopyText(answer) == Some(answer.value.question.s + "\n\n" + answer.value.answer.s)
  {
    if answer.Some? {
      var p := answer.value;
      var parts := CopyParts(p);
      if p.question.Str? && p.answer.Str? && !Truthy(p.codeSnippet) && p.question.s != "" && p.answer.s != "" {
        assert parts == [p.question, p.answer];
        var texts := seq(|parts|, i requires 0 <= i < |parts| => ToText(parts[i]));
        assert texts == [p.question.s, p.answer.s];
        assert Join(texts, "\n\n") == p.question.s + "\n\n" + Join(texts[1..], "\n\n");
      }
    }
  }

  /** With a question, an answer and a code snippet, all three are copied in that order, separated by blank lines. */
  lemma CopyTextThreeParts(p: Parsed)
    requires p.question.Str? && p.answer.Str? && p.codeSnippet.Str?
    requires p.question.s != "" && p.answer.s != "" && p.codeSnippet.s != ""
    ensures CopyText(Some(p)) == Some(p.question.s + "\n\n" + p.answer.s + "\n\n" + p.codeSnippet.s)
  {
    var parts := CopyParts(p);
    var texts := seq(|parts|, i requires 0 <= i < |parts| => ToText(parts[i]));
    assert texts == [p.question.s, p.answer.s, p.codeSnippet.s];
    assert Join(texts[2..], "\n\n") == p.codeSnippet.s;
    assert Join(texts[1..], "\n\n") == p.answer.s + "\n\n" + Join(texts[2..], "\n\n");
    assert Join(texts, "\n\n") == p.question.s + "\n\n" + Join(texts[1..], "\n\n");
    var q, a, c := p.question.s, p.answer.s, p.codeSnippet.s;
    assert q + "\n\n" + (a + "\n\n" + c) == q + "\n\n" + a + "\n\n" + c;
    assert CopyText(Some(p)) == Some(Join(texts, "\n\n"));
  }

  /** Every truthy string part of the answer appears in the copied text. */
  lemma {:induction false} CopyTextContainsParts(p: Parsed, part: Json)
    requires Truthy(p.answer) || Truthy(p.question)
    requires part in CopyParts(p)
    ensures Contains(CopyText(Some(p)).value, ToText(part))
  {
    var parts := CopyParts(p);
    var texts := seq(|parts|, i requires 0 <= i < |parts| => ToText(parts[i]));
    var k :| 0 <= k < |parts| && parts[k] == part;
    JoinContainsPart(texts, "\n\n", k);
  }

  /** The card (loading skeleton or answer) is shown exactly while loading or showing an answer. */
  predicate ShowCard(state: OverlayState)
    ensures ShowCard(state) <==> state != Idle
  {
    state == Loading || state == ShowingAnswer
  }

  class OverlayWindow {
    var state: OverlayState
    var answer: Option<Parsed>
    var dismissMs: int
    var dismissDeadline: Option<int>

    /** A timer is pending only while an answer is shown with a positive delay. */
    predicate Valid()
      reads this
    {
      dismissDeadline.Some? ==> state == ShowingAnswer && dismissMs > 0
    }

    constructor ()
      ensures Valid()
      ensures state == Idle && answer == None && dismissMs == DefaultDismissMs && dismissDeadline == None
    {
      state := Idle;
      answer := None;
      dismissMs := DefaultDismissMs;
      dismissDeadline := None;
    }

    /**
     * `setOverlayState(next)` with the effect it triggers: nothing when the state does not change;
     * otherwise the pending timer is cleared, and a new one is armed if the answer is now shown.
     */
    method SetState(next: OverlayState, now: int)
      requires Valid()
      modifies this`state, this`dismissDeadline
      ensures Valid()
      ensures state == next
      ensures next == old(state) ==> dismissDeadline == old(dismissDeadline)
      ensures next != old(state) ==>
        dismissDeadline == (if next == ShowingAnswer && dismissMs > 0 then Some(now + dismissMs) else None)
    {
      if next != state {
        dismissDeadline := None;
        state := next;
        if state == ShowingAnswer && dismissMs > 0 {
          dismissDeadline := Some(now + dismissMs);
        }
      }
    }

    /** `question-processing`: show the loading card, drop the answer. */
    method OnQuestionProcessing(now: int)
      requires Valid()
      modifies this`state, this`answer, this`dismissDeadline
      ensures Valid()
      ensures state == Loading && answer == None && dismissDeadline == None
    {
      SetState(Loading, now);
      answer := None;
    }

    /**
     * `new-answer`: store the answer and show it. The dismiss timer starts when the overlay was not
     * showing an answer; an answer that replaces a shown one keeps the pending timer.
     */
    method OnAnswer(p: Parsed, now: int)
      requires Valid()
      modifies this`state, this`answer, this`dismissDeadline
      ensures Valid()
      ensures state == ShowingAnswer && answer == Some(p)
      ensures old(state) == ShowingAnswer ==> dismissDeadline == old(dismissDeadline)
      ensures old(state) != ShowingAnswer ==> dismissDeadline == (if dismissMs > 0 then Some(now + dismissMs) else None)
    {
      answer := Some(p);
      SetState(ShowingAnswer, now);
    }

    /** `dismiss-answer`: back to idle, no answer, no timer. */
    method OnDismissAnswer(now: int)
      requires Valid()
      modifies this`state, this`answer, this`dismissDeadline
      ensures Valid()
      ensures state == Idle && answer == None && dismissDeadline == None
    {
      SetState(Idle, now);
      answer := None;
    }

    /** The dismiss timer at `now`: once its deadline has passed the overlay goes idle and forgets the answer. */
    method Tick(now: int) returns (fired: bool)
      requires Valid()
      modifies this`state, this`answer, this`dismissDeadline
      ensures Valid()
      ensures fired <==> old(dismissDeadline).Some? && now >= old(dismissDeadline).value
      ensures fired ==> state == Idle && answer == None && dismissDeadline == None
      ensures !fired ==> state == old(state) && answer == old(answer) && dismissDeadline == old(dismissDeadline)
    {
      fired := dismissDeadline.Some? && now >= dismissDeadline.value;
      if fired {
        dismissDeadline := None;
        state := Idle;
        answer := None;
      }
    }

    /**
     * The settings reply: a non-null `overlayDismissSeconds` sets the delay. A changed delay re-runs
     * the effect, which replaces a pending timer by one of the new length while an answer is shown.
     */
    method SetDismissSeconds(seconds: Option<int>, now: int)
      requires Valid()
      modifies this`dismissMs, this`dismissDeadline
      ensures Valid()
      ensures dismissMs == (if seconds.Some? then DismissMsOf(seconds.value) else old(dismissMs))
      ensures dismissMs == old(dismissMs) ==> dismissDeadline == old(dismissDeadline)
      ensures dismissMs != old(dismissMs) ==>
        dismissDeadline == (if state == ShowingAnswer && dismissMs > 0 then Some(now + dismissMs) else None)
    {
      if seconds.Some? {
        var ms := DismissMsOf(seconds.value);
        if ms != dismissMs {
          dismissMs := ms;
          dismissDeadline := None;
          if state == ShowingAnswer && dismissMs > 0 {
            dismissDeadline := Some(now + dismissMs);
          }
        }
      }
    }

    /** The text the copy shortcut puts on the clipboard, if any. */
    function Copy(): (t: Option<string>)
      reads this
      ensures t.Some? <==> answer.Some? && (Truthy(answer.value.answer) || Truthy(answer.value.question))
      ensures t == CopyText(answer)
    {
      CopyText(answer)
    }
  }
}
