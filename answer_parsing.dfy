/**
 * The answer-shaping functions of the main process (electron/main.js): `flattenToString`,
 * `buildAIMessages`, `parseAIResponse` and the suppression rule of `broadcastAnswer`.
 */
module AnswerParsing {
  import opened Wrappers
  import opened Text
  import opened Json

  // ---------------------------------------------------------------- flattenToString

  /** `flattenToString(val)`: turn a structured value into newline-separated plain text. */
  function Flatten(v: Json): (r: string)
    ensures v.Str? ==> r == v.s
    ensures IsNullish(v) ==> r == ""
    decreases v
  {
    match v
    case Str(s) => s
    case Undefined => ""
    case Null => ""
    case Arr(items) => Join(seq(|items|, i requires 0 <= i < |items| => Flatten(items[i])), "\n")
    case Obj(ms) => Join(seq(|ms|, i requires 0 <= i < |ms| => EntryText(ms[i].0, Flatten(ms[i].1))), "\n\n")
    case _ => ToText(v)
  }

  /** How one object entry is rendered: its key on a line of its own, then the flattened value. */
  function EntryText(key: string, flat: string): string {
    key + "\n" + flat
  }

  /** t is a string value or an object key somewhere inside v. */
  predicate Mentions(v: Json, t: string)
    decreases v
  {
    match v
    case Str(s) => s == t
    case Arr(items) => exists i :: 0 <= i < |items| && Mentions(items[i], t)
    case Obj(ms) => exists i :: 0 <= i < |ms| && (ms[i].0 == t || Mentions(ms[i].1, t))
    case _ => false
  }

  /** Flattening loses no text: every string and every key of the value occurs in the result. */
  lemma {:induction false} FlattenKeepsText(v: Json, t: string)
    requires Mentions(v, t)
    ensures Contains(Flatten(v), t)
    decreases v
  {
    match v
    case Str(s) =>
      assert OccursAt(s, t, 0);
    case Arr(items) =>
      var i :| 0 <= i < |items| && Mentions(items[i], t);
      FlattenKeepsText(items[i], t);
      var parts := seq(|items|, j requires 0 <= j < |items| => Flatten(items[j]));
      JoinContainsPart(parts, "\n", i);
      ContainsTransitive(Flatten(v), parts[i], t);
    case Obj(ms) =>
      var i :| 0 <= i < |ms| && (ms[i].0 == t || Mentions(ms[i].1, t));
      var parts := seq(|ms|, j requires 0 <= j < |ms| => EntryText(ms[j].0, Flatten(ms[j].1)));
      JoinContainsPart(parts, "\n\n", i);
      if ms[i].0 == t {
        assert OccursAt(parts[i], t, 0);
      } else {
        FlattenKeepsText(ms[i].1, t);
        SuffixContains(ms[i].0 + "\n", Flatten(ms[i].1), t);
      }
      ContainsTransitive(Flatten(v), parts[i], t);
  }

  lemma SuffixContains(a: string, b: string, t: string)
    requires Contains(b, t)
    ensures Contains(a + b, t)
  {
    var i: nat :| i <= |b| && OccursAt(b, t, i);
    forall m | 0 <= m < |t| ensures (a + b)[|a| + i + m] == t[m] {
      assert b[i..i + |t|][m] == t[m];
    }
    assert (a + b)[|a| + i..|a| + i + |t|] == t;
    assert OccursAt(a + b, t, |a| + i);
  }

  /** The object `{"Definition": "x", "Example": "y"}` flattens to "Definition\nx\n\nExample\ny". */
  lemma FlattenSectionsExample()
    ensures Flatten(Obj([("Definition", Str("x")), ("Example", Str("y"))])) == "Definition\nx\n\nExample\ny"
  {
    var ms := [("Definition", Str("x")), ("Example", Str("y"))];
    var parts := seq(|ms|, i requires 0 <= i < |ms| => EntryText(ms[i].0, Flatten(ms[i].1)));
    assert Flatten(Str("x")) == "x" && Flatten(Str("y")) == "y";
    assert parts[0] == "Definition\nx" && parts[1] == "Example\ny";
    assert parts == ["Definition\nx", "Example\ny"];
    assert Join(parts, "\n\n") == "Definition\nx" + "\n\n" + Join(parts[1..], "\n\n");
  }

  // ---------------------------------------------------------------- buildAIMessages

  datatype Messages = Messages(systemPrompt: string, userContent: string)

  const TranscriptHeading: string := "Transcript:\n"
  const UtteranceHeading: string := "\n\nLast utterance: "

  /**
   * `buildAIMessages`: the user message shows the transcript (the utterance when there is no context)
   * and ends with the last utterance.
   */
  function BuildAIMessages(systemPrompt: string, utterance: string, fullContext: string): (m: Messages)
    ensures m.systemPrompt == systemPrompt
    ensures StartsWith(m.userContent, TranscriptHeading)
    ensures |m.userContent| >= |TranscriptHeading| + |UtteranceHeading| + |utterance|
    ensures m.userContent[|m.userContent| - |utterance| - |UtteranceHeading|..] == UtteranceHeading + utterance
    ensures m.userContent[|TranscriptHeading|..|m.userContent| - |utterance| - |UtteranceHeading|]
         == if fullContext != "" then fullContext else utterance
  {
    var shown := if fullContext != "" then fullContext else utterance;
    var u := TranscriptHeading + shown + UtteranceHeading + utterance;
    assert u[|TranscriptHeading|..|u| - |utterance| - |UtteranceHeading|] == shown;
    assert u[|u| - |utterance| - |UtteranceHeading|..] == UtteranceHeading + utterance;
    Messages(systemPrompt, u)
  }

  // ---------------------------------------------------------------- parseAIResponse

  /**
   * The five fields of the object `parseAIResponse` returns. Each holds whatever JavaScript value the
   * model produced (`undefined` when the member is missing).
   */
  datatype Parsed = Parsed(hasQuestion: Json, question: Json, answer: Json, codeSnippet: Json, language: Json)

  /** The shape returned when no JSON object can be read from the reply. */
  const DefaultAnswer: Parsed := Parsed(Bool(false), Str(""), Str(""), Null, Null)

  /** `JSON.parse`, abstracted: the member list of the object a JSON text denotes, or `None` when it does not parse. */
  type JsonParser = string -> Option<seq<(string, Json)>>

  function LastIndexOf(s: string, c: char): (k: nat)
    requires c in s
    ensures k < |s| && s[k] == c && c !in s[k + 1..]
  {
    if s[|s| - 1] == c then |s| - 1
    else
      assert s[..|s| - 1] + [s[|s| - 1]] == s;
      LastIndexOf(s[..|s| - 1], c)
  }

  /**
   * `text.match(/\{[\s\S]*\}/)`: the span [start, end) from the first '{' to the last '}', when that '}'
   * comes after the '{'.
   */
  function JsonSpan(text: string): (r: Option<(nat, nat)>)
    ensures r.Some? ==> r.value.0 < r.value.1 <= |text|
  {
    if '{' in text && '}' in text && IndexOf(text, '{') < LastIndexOf(text, '}') then
      Some((IndexOf(text, '{'), LastIndexOf(text, '}') + 1))
    else None
  }

  /** The span found is the leftmost-longest one, and there is none exactly when no '{' precedes a '}'. */
  lemma JsonSpanIsLeftmostLongest(text: string)
    ensures JsonSpan(text).Some? <==> exists p, q :: 0 <= p < q < |text| && text[p] == '{' && text[q] == '}'
    ensures JsonSpan(text).Some? ==>
      var (i, j) := JsonSpan(text).value;
      text[i] == '{' && text[j - 1] == '}' && '{' !in text[..i] && '}' !in text[j..]
  {
    if exists p, q :: 0 <= p < q < |text| && text[p] == '{' && text[q] == '}' {
      var p, q :| 0 <= p < q < |text| && text[p] == '{' && text[q] == '}';
      var i, j := IndexOf(text, '{'), LastIndexOf(text, '}');
    }
  }

  /** The text left once the matched span and everything before it are removed (`text.replace(/^[\s\S]*?\{[\s\S]*\}/, '')`). */
  function AfterSpan(text: string): string {
    match JsonSpan(text)
    case Some((_, j)) => text[j..]
    case None => text
  }

  /** What follows the span is a suffix of the reply, so it is empty whenever the reply is. */
  lemma AfterSpanIsSuffix(text: string)
    ensures |AfterSpan(text)| <= |text|
  {
  }

  /** The interrogative openings the utterance is compared with, case-insensitively, after trimming. */
  const QuestionOpenings: seq<string> :=
    ["what", "how", "why", "when", "where", "explain", "define", "tell me", "describe", "compare", "difference", "implement"]

  predicate LooksLikeQuestion(utterance: string)
    ensures '?' in utterance ==> LooksLikeQuestion(utterance)
    ensures StartsWith(ToLower(Trim(utterance)), "what") ==> LooksLikeQuestion(utterance)
    ensures LooksLikeQuestion(utterance) <==>
      '?' in utterance || exists i :: 0 <= i < |QuestionOpenings| && StartsWith(ToLower(Trim(utterance)), QuestionOpenings[i])
  {
    '?' in utterance
    || exists w :: w in QuestionOpenings && StartsWith(ToLower(Trim(utterance)), w)
  }

  const QuestionLimit: nat := 200
  const AnswerLimit: nat := 4000

  function FromObject(ms: seq<(string, Json)>): Parsed {
    Parsed(Lookup(ms, "hasQuestion"), Lookup(ms, "question"), Lookup(ms, "answer"),
           Lookup(ms, "codeSnippet"), Lookup(ms, "language"))
  }

  /** The object read from the reply before any repair: the parsed span, or the default shape. */
  function Extracted(text: string, parse: JsonParser): (r: Parsed)
    ensures JsonSpan(text).None? ==> r == DefaultAnswer
    ensures JsonSpan(text).Some? && parse(text[JsonSpan(text).value.0..JsonSpan(text).value.1]).None? ==> r == DefaultAnswer
    ensures JsonSpan(text).Some? && parse(text[JsonSpan(text).value.0..JsonSpan(text).value.1]).Some? ==>
      r == FromObject(parse(text[JsonSpan(text).value.0..JsonSpan(text).value.1]).value)
    ensures r != DefaultAnswer ==>
      JsonSpan(text).Some? && parse(text[JsonSpan(text).value.0..JsonSpan(text).value.1]).Some?
      && r == FromObject(parse(text[JsonSpan(text).value.0..JsonSpan(text).value.1]).value)
  {
    match JsonSpan(text)
    case None => DefaultAnswer
    case Some((i, j)) =>
      match parse(text[i..j])
      case None => DefaultAnswer
      case Some(ms) => FromObject(ms)
  }

  /** A truthy value that is not a string is flattened; every other value is kept. */
  function AsText(v: Json): (r: Json)
    ensures Truthy(r) ==> r.Str?
    ensures v.Str? || !Truthy(v) ==> r == v
    ensures Truthy(v) && !v.Str? ==> r == Str(Flatten(v))
  {
    if Truthy(v) && !v.Str? then Str(Flatten(v)) else v
  }

  /**
   * The answer text synthesised for a question: the first 4000 characters of what follows the JSON
   * span, trimmed, or, when that is empty, the first 4000 characters of the reply. It is empty only
   * for an empty reply.
   */
  function FallbackAnswer(text: string): (r: string)
    ensures |r| <= AnswerLimit
    ensures var rest := Trim(AfterSpan(text));
      rest != "" ==> StartsWith(rest, r) && |r| == (if |rest| < AnswerLimit then |rest| else AnswerLimit)
    ensures var rest := Trim(AfterSpan(text));
      rest == "" ==> StartsWith(text, r) && |r| == (if |text| < AnswerLimit then |text| else AnswerLimit)
    ensures r == "" <==> text == ""
  {
    AfterSpanIsSuffix(text);
    var rest := Take(Trim(AfterSpan(text)), AnswerLimit);
    if rest != "" then rest else Take(text, AnswerLimit)
  }

  /** `parseAIResponse(text, utterance)`. */
  function ParseAIResponse(text: string, utterance: string, parse: JsonParser): (r: Parsed)
    ensures Truthy(r.answer) ==> r.answer.Str?
    ensures Truthy(r.codeSnippet) ==> r.codeSnippet.Str?
    ensures r.language == Extracted(text, parse).language
  {
    var e := Extracted(text, parse);
    var p := e.(answer := AsText(e.answer), codeSnippet := AsText(e.codeSnippet));
    if !Truthy(p.hasQuestion) && LooksLikeQuestion(utterance) then
      p.(hasQuestion := Bool(true),
         question := if Truthy(p.question) then p.question else Str(Take(Trim(utterance), QuestionLimit)),
         answer := if Truthy(p.answer) then p.answer else Str(FallbackAnswer(text)))
    else p
  }

  /** Without a readable object and without a question-like utterance, the result is the default shape. */
  lemma UnreadableReplyGivesDefault(text: string, utterance: string, parse: JsonParser)
    requires JsonSpan(text).None? || parse(text[JsonSpan(text).value.0..JsonSpan(text).value.1]).None?
    requires !LooksLikeQuestion(utterance)
    ensures ParseAIResponse(text, utterance, parse) == DefaultAnswer
  {
  }

  /**
   * When the model did not flag a question but the utterance looks like one, the result is flagged,
   * a missing question becomes the trimmed utterance cut to 200 characters and a missing answer
   * becomes at most 4000 characters of the reply.
   */
  lemma QuestionSynthesis(text: string, utterance: string, parse: JsonParser)
    requires !Truthy(Extracted(text, parse).hasQuestion) && LooksLikeQuestion(utterance)
    ensures var r := ParseAIResponse(text, utterance, parse);
      && r.hasQuestion == Bool(true)
      && r.answer.Str?
      && (!Truthy(Extracted(text, parse).question) ==>
            r.question == Str(Take(Trim(utterance), QuestionLimit)) && |r.question.s| <= QuestionLimit)
      && (!Truthy(AsText(Extracted(text, parse).answer)) ==> |r.answer.s| <= AnswerLimit)
  {
  }

  /**
   * The synthesis keeps what the model did give: a truthy question and a non-empty answer text stay
   * as extracted, a missing answer becomes `FallbackAnswer`, and the code and language are untouched.
   */
  lemma SynthesisKeepsGivenFields(text: string, utterance: string, parse: JsonParser)
    requires !Truthy(Extracted(text, parse).hasQuestion) && LooksLikeQuestion(utterance)
    ensures var e, r := Extracted(text, parse), ParseAIResponse(text, utterance, parse);
      && (Truthy(e.question) ==> r.question == e.question)
      && (Truthy(AsText(e.answer)) ==> r.answer == AsText(e.answer))
      && (!Truthy(AsText(e.answer)) ==> r.answer == Str(FallbackAnswer(text)))
      && r.codeSnippet == AsText(e.codeSnippet) && r.language == e.language
  {
  }

  /**
   * Without synthesis (the model flagged a question, or the utterance does not look like one), the
   * result is the extracted object with only its answer and code turned into text.
   */
  lemma ExtractedPassesThrough(text: string, utterance: string, parse: JsonParser)
    requires Truthy(Extracted(text, parse).hasQuestion) || !LooksLikeQuestion(utterance)
    ensures var e, r := Extracted(text, parse), ParseAIResponse(text, utterance, parse);
      && r.hasQuestion == e.hasQuestion && r.question == e.question && r.language == e.language
      && r.answer == AsText(e.answer) && r.codeSnippet == AsText(e.codeSnippet)
  {
  }

  /** A flagged object in the reply is returned unchanged, once its answer and code are plain text. */
  predicate Strict(p: Parsed) {
    p.hasQuestion == Bool(true) && p.answer.Str? && (p.codeSnippet.Str? || p.codeSnippet.Null?)
  }

  /** A single JSON object surrounded by prose without braces is extracted and returned exactly. */
  lemma EmbeddedObjectRoundTrip(pre: string, span: string, post: string, utterance: string, parse: JsonParser)
    requires '{' !in pre && '}' !in post
    requires |span| >= 2 && span[0] == '{' && span[|span| - 1] == '}'
    requires parse(span).Some? && Strict(FromObject(parse(span).value))
    ensures ParseAIResponse(pre + span + post, utterance, parse) == FromObject(parse(span).value)
  {
    var text := pre + span + post;
    var i, j := |pre|, |pre| + |span|;
    assert text[i] == '{' && text[j - 1] == '}';
    assert IndexOf(text, '{') == i by {
      var k := IndexOf(text, '{');
    }
    assert LastIndexOf(text, '}') == j - 1 by {
      var k := LastIndexOf(text, '}');
    }
    assert text[i..j] == span;
  }

  /** The JSON object of the worked example: a flagged question with a plain answer and no code. */
  const ExampleObject: string :=
    "{" + "\"hasQuestion\":true,\"question\":\"Q?\",\"answer\":\"A\",\"codeSnippet\":null,\"language\":null" + "}"

  /** The reply "Intro text {...} trailing" yields exactly the object inside it. */
  lemma IntroTextExample(parse: JsonParser)
    requires parse(ExampleObject)
      == Some([("hasQuestion", Bool(true)), ("question", Str("Q?")), ("answer", Str("A")), ("codeSnippet", Null), ("language", Null)])
    ensures ParseAIResponse("Intro text " + ExampleObject + " trailing", "Q?", parse)
      == Parsed(Bool(true), Str("Q?"), Str("A"), Null, Null)
  {
    EmbeddedObjectRoundTrip("Intro text ", ExampleObject, " trailing", "Q?", parse);
  }

  // ---------------------------------------------------------------- broadcastAnswer

  /** The windows of the application that can be told about a new answer. */
  datatype Surface = OverlaySurface | ControlPanelSurface

  /** `broadcastAnswer`: the live windows that receive a `new-answer` message, in the order they are sent. */
  function Broadcast(p: Parsed, overlayAlive: bool, panelAlive: bool): (r: seq<Surface>)
    ensures !Truthy(p.hasQuestion) ==> r == []
    ensures Truthy(p.hasQuestion) ==> (OverlaySurface in r <==> overlayAlive) && (ControlPanelSurface in r <==> panelAlive)
    ensures |r| <= 2
  {
    if !Truthy(p.hasQuestion) then []
    else (if overlayAlive then [OverlaySurface] else []) + (if panelAlive then [ControlPanelSurface] else [])
  }

  /** A question-like utterance always produces a flagged answer, so its answer is never suppressed. */
  lemma QuestionLikeUtteranceIsBroadcast(text: string, utterance: string, parse: JsonParser)
    requires LooksLikeQuestion(utterance)
    ensures Truthy(ParseAIResponse(text, utterance, parse).hasQuestion)
  {
  }
}
