/**
 * The control panel (src/App.jsx): how an answer's text is laid out line by line (`FormattedAnswer`),
 * the silence handler that asks for an answer, the answer history with its loading and error flags,
 * the clipboard text of an entry, the status shown in the status bar and the choice between the setup
 * wizard and the main view. `JSON.stringify` is a function parameter.
 */
module App {
  import opened Wrappers
  import opened Text
  import opened Json
  import opened AnswerParsing
  import opened AIAnswer

  // ---------------------------------------------------------------- FormattedAnswer

  /** The characters a regular expression's `.` does not match. */
  predicate IsLineTerminator(c: char) {
    c == '\n' || c == '\r' || c == '\U{2028}' || c == '\U{2029}'
  }

  predicate NoTerminator(s: string) {
    forall i :: 0 <= i < |s| ==> !IsLineTerminator(s[i])
  }

  /** `/^\[.+\]$/`. */
  predicate BracketHeader(t: string) {
    |t| >= 3 && t[0] == '[' && t[|t| - 1] == ']' && NoTerminator(t[1..|t| - 1])
  }

  /** `/^\*\*.+\*\*:?$/`. */
  predicate StarHeader(t: string) {
    StartsWith(t, "**")
    && ((|t| >= 5 && t[|t| - 2..] == "**" && NoTerminator(t[2..|t| - 2]))
        || (|t| >= 6 && t[|t| - 3..] == "**:" && NoTerminator(t[2..|t| - 3])))
  }

  /**
   * The global replace of the header markers, from index i on: a leading `[`, a closing `]` at the
   * very end and every `**` (matched left to right, without overlap) are removed.
   */
  function StripMarkers(t: string, i: nat): (r: string)
    requires i <= |t|
    ensures |r| <= |t| - i
    decreases |t| - i
  {
    if i == |t| then ""
    else if i == 0 && t[0] == '[' then StripMarkers(t, 1)
    else if i == |t| - 1 && t[i] == ']' then ""
    else if i + 1 < |t| && t[i] == '*' && t[i + 1] == '*' then StripMarkers(t, i + 2)
    else [t[i]] + StripMarkers(t, i + 1)
  }

  /** `.replace(/:$/, '')`: one trailing colon removed. */
  function DropColon(s: string): (r: string)
    ensures r == s || (s == r + ":")
    ensures |s| > 0 && s[|s| - 1] == ':' ==> s == r + ":"
    ensures (|s| == 0 || s[|s| - 1] != ':') ==> r == s
  {
    if |s| > 0 && s[|s| - 1] == ':' then s[..|s| - 1] else s
  }

  /**
   * Characters that are no marker are kept: from i up to k nothing is removed when that stretch holds
   * no `*`, no `]` at the very end and no `[` at the very start.
   */
  lemma {:induction false} StripMarkersKeeps(t: string, i: nat, k: nat)
    requires i <= k <= |t|
    requires forall j :: i <= j < k ==> Unmarked(t, j)
    ensures StripMarkers(t, i) == t[i..k] + StripMarkers(t, k)
    decreases k - i
  {
    if i == k {
      assert t[i..k] == [];
    } else {
      StripMarkersKeepsOne(t, i);
      StripMarkersKeeps(t, i + 1, k);
      var tail := StripMarkers(t, k);
      calc {
        StripMarkers(t, i);
        [t[i]] + StripMarkers(t, i + 1);
        [t[i]] + (t[i + 1..k] + tail);
        ([t[i]] + t[i + 1..k]) + tail;
        { assert [t[i]] + t[i + 1..k] == t[i..k]; }
        t[i..k] + tail;
      }
    }
  }

  /** The character at j is no marker: not a `*`, not the closing `]` at the end, not the opening `[`. */
  predicate Unmarked(t: string, j: nat)
    requires j < |t|
  {
    t[j] != '*' && (j == |t| - 1 ==> t[j] != ']') && (j == 0 ==> t[j] != '[')
  }

  /** One character that is no marker is kept. */
  lemma StripMarkersKeepsOne(t: string, i: nat)
    requires i < |t| && Unmarked(t, i)
    ensures StripMarkers(t, i) == [t[i]] + StripMarkers(t, i + 1)
  {
  }

  /** A text with no `[`, `]` or `*` loses nothing. */
  lemma {:induction false} StripMarkersOfPlain(t: string)
    requires '[' !in t && ']' !in t && '*' !in t
    ensures StripMarkers(t, 0) == t
  {
    StripMarkersKeeps(t, 0, |t|);
    assert t[0..|t|] == t;
  }

  /** `[X]` with no `*` in it loses exactly its brackets. */
  lemma {:induction false} StripMarkersOfBracketHeader(t: string)
    requires BracketHeader(t) && '*' !in t
    ensures StripMarkers(t, 0) == t[1..|t| - 1]
  {
    StripMarkersKeeps(t, 1, |t| - 1);
  }

  /** `**X**` with no `*` inside loses exactly its star pairs. */
  lemma {:induction false} StripMarkersOfStarHeader(t: string)
    requires |t| >= 5 && t[..2] == "**" && t[|t| - 2..] == "**" && '*' !in t[2..|t| - 2]
    ensures StripMarkers(t, 0) == t[2..|t| - 2]
  {
    assert t[0] == '*' && t[1] == '*';
    assert t[|t| - 2] == '*' && t[|t| - 1] == '*';
    assert StripMarkers(t, 0) == StripMarkers(t, 2);
    assert StripMarkers(t, |t| - 2) == StripMarkers(t, |t|) == "";
    forall j | 2 <= j < |t| - 2 ensures t[j] != '*' {
      assert t[j] == t[2..|t| - 2][j - 2];
    }
    StripMarkersKeeps(t, 2, |t| - 2);
  }

  /** `**X**:` with no `*` inside keeps X and the colon, which the label then drops. */
  lemma {:induction false} StripMarkersOfStarColonHeader(t: string)
    requires |t| >= 6 && t[..2] == "**" && t[|t| - 3..] == "**:" && '*' !in t[2..|t| - 3]
    ensures StripMarkers(t, 0) == t[2..|t| - 3] + ":"
    ensures Label(t) == t[2..|t| - 3]
  {
    assert t[0] == '*' && t[1] == '*';
    assert t[|t| - 3] == '*' && t[|t| - 2] == '*' && t[|t| - 1] == ':';
    assert StripMarkers(t, 0) == StripMarkers(t, 2);
    assert StripMarkers(t, |t| - 1) == [':'] + StripMarkers(t, |t|);
    assert StripMarkers(t, |t| - 3) == StripMarkers(t, |t| - 1) == ":";
    forall j | 2 <= j < |t| - 3 ensures t[j] != '*' {
      assert t[j] == t[2..|t| - 3][j - 2];
    }
    StripMarkersKeeps(t, 2, |t| - 3);
    var s := StripMarkers(t, 0);
    assert s[..|s| - 1] == t[2..|t| - 3];
  }

  /** The label of a header line. */
  function Label(t: string): string {
    DropColon(StripMarkers(t, 0))
  }

  /** No two adjacent `*`. */
  predicate NoDoubleStar(s: string) {
    forall k :: 0 <= k < |s| - 1 ==> !(s[k] == '*' && s[k + 1] == '*')
  }

  /** After index 0, an unmatched character other than `*` starts the rest of the stripped text. */
  lemma StripMarkersStart(t: string, i: nat)
    requires 1 <= i < |t| && t[i] != '*'
    ensures StripMarkers(t, i) == "" || StripMarkers(t, i)[0] == t[i]
  {
  }

  /** Removing the markers leaves no `**` behind: a kept `*` is never followed by another one. */
  lemma {:induction false} StripMarkersNoDoubleStar(t: string, i: nat)
    requires i <= |t|
    ensures NoDoubleStar(StripMarkers(t, i))
    decreases |t| - i
  {
    if i == |t| {
    } else if i == 0 && t[0] == '[' {
      StripMarkersNoDoubleStar(t, 1);
    } else if i == |t| - 1 && t[i] == ']' {
    } else if i + 1 < |t| && t[i] == '*' && t[i + 1] == '*' {
      StripMarkersNoDoubleStar(t, i + 2);
    } else {
      StripMarkersNoDoubleStar(t, i + 1);
      var rest := StripMarkers(t, i + 1);
      var r := [t[i]] + rest;
      if t[i] == '*' && rest != [] {
        StripMarkersStart(t, i + 1);
      }
      forall k | 0 <= k < |r| - 1 ensures !(r[k] == '*' && r[k + 1] == '*') {
        if k > 0 {
          assert r[k] == rest[k - 1] && r[k + 1] == rest[k];
        }
      }
    }
  }

  /** A header label never contains `**`. */
  lemma LabelHasNoDoubleStar(t: string)
    ensures NoDoubleStar(Label(t))
  {
    StripMarkersNoDoubleStar(t, 0);
    var s := StripMarkers(t, 0);
    if |s| > 0 && s[|s| - 1] == ':' {
      var r := s[..|s| - 1];
      forall k | 0 <= k < |r| - 1 ensures !(r[k] == '*' && r[k + 1] == '*') {
        assert r[k] == s[k] && r[k + 1] == s[k + 1];
      }
    }
  }

  /** Examples of labels: both header forms lose their markers and the trailing colon. */
  lemma LabelExamples()
    ensures Label("[Q]") == "Q"
    ensures Label("**Q:**") == "Q"
    ensures Label("**Q**:") == "Q"
  {
    var a, b, c := "[Q]", "**Q:**", "**Q**:";
    assert StripMarkers(a, 2) == "";
    assert StripMarkers(a, 1) == "Q";
    assert StripMarkers(b, 6) == "" && StripMarkers(b, 4) == "";
    assert StripMarkers(b, 3) == ":";
    assert StripMarkers(b, 2) == "Q:";
    assert StripMarkers(c, 6) == "";
    assert StripMarkers(c, 5) == ":";
    assert StripMarkers(c, 3) == ":";
    assert StripMarkers(c, 2) == "Q:";
  }

  predicate IsBulletMark(c: char) {
    c == '\U{2022}' || c == '-' || c == '*'
  }

  /** `/^[•\-\*]\s/`. */
  predicate BulletLine(t: string) {
    |t| >= 2 && IsBulletMark(t[0]) && IsSpace(t[1])
  }

  /** `t.slice(i)` without its leading white space (`replace(/^...\s+/, '')` once the marker is matched). */
  function AfterSpaces(t: string, i: nat): (r: string)
    requires i <= |t|
    ensures |r| <= |t| - i && r == t[|t| - |r|..]
    ensures r != [] ==> !IsSpace(r[0])
    ensures forall j :: i <= j < |t| - |r| ==> IsSpace(t[j])
    decreases |t| - i
  {
    if i < |t| && IsSpace(t[i]) then AfterSpaces(t, i + 1) else t[i..]
  }

  predicate IsDigit(c: char) {
    '0' <= c <= '9'
  }

  /** The length of the run of decimal digits at the start of t. */
  function LeadingDigits(t: string): (k: nat)
    ensures k <= |t|
    ensures forall i :: 0 <= i < k ==> IsDigit(t[i])
    ensures k < |t| ==> !IsDigit(t[k])
  {
    DigitsEnd(t, 0)
  }

  /** Where the run of decimal digits of t that starts at i ends. */
  function DigitsEnd(t: string, i: nat): (k: nat)
    requires i <= |t|
    ensures i <= k <= |t|
    ensures forall j :: i <= j < k ==> IsDigit(t[j])
    ensures k < |t| ==> !IsDigit(t[k])
    decreases |t| - i
  {
    if i < |t| && IsDigit(t[i]) then DigitsEnd(t, i + 1) else i
  }

  /** `/^\d+[\.\)]\s/`. */
  predicate NumberedLine(t: string) {
    var k := LeadingDigits(t);
    k >= 1 && k + 1 < |t| && (t[k] == '.' || t[k] == ')') && IsSpace(t[k + 1])
  }

  /** `.map(c => c.trim()).filter(Boolean)`. */
  function Cells(parts: seq<string>): (r: seq<string>)
    ensures |r| <= |parts|
    ensures forall k :: 0 <= k < |r| ==> r[k] != ""
  {
    if parts == [] then []
    else
      var c := Trim(parts[0]);
      (if c != "" then [c] else []) + Cells(parts[1..])
  }

  /** Cutting the pieces in two cuts the cells in two: the filter keeps the pieces' order. */
  lemma {:induction false} CellsAppend(a: seq<string>, b: seq<string>)
    ensures Cells(a + b) == Cells(a) + Cells(b)
    decreases |a|
  {
    if a == [] {
      assert a + b == b;
    } else {
      assert (a + b)[1..] == a[1..] + b;
      CellsAppend(a[1..], b);
    }
  }

  /** The pieces, each trimmed. */
  function TrimAll(parts: seq<string>): (r: seq<string>)
    ensures |r| == |parts|
    ensures forall j :: 0 <= j < |parts| ==> r[j] == Trim(parts[j])
  {
    if parts == [] then [] else [Trim(parts[0])] + TrimAll(parts[1..])
  }

  /** Every cell is one of the trimmed pieces. */
  lemma {:induction false} CellsAreTrimmedPieces(parts: seq<string>)
    ensures forall k :: 0 <= k < |Cells(parts)| ==> Cells(parts)[k] in TrimAll(parts)
    decreases |parts|
  {
    if parts != [] {
      CellsAreTrimmedPieces(parts[1..]);
      var c, rest := Trim(parts[0]), Cells(parts[1..]);
      assert Cells(parts) == (if c != "" then [c] else []) + rest;
      assert TrimAll(parts) == [c] + TrimAll(parts[1..]);
    }
  }

  /** When no piece trims to nothing, the cells are exactly the trimmed pieces, in order. */
  lemma {:induction false} CellsOfFullPieces(parts: seq<string>)
    requires forall j :: 0 <= j < |parts| ==> Trim(parts[j]) != ""
    ensures |Cells(parts)| == |parts|
    ensures forall j :: 0 <= j < |parts| ==> Cells(parts)[j] == Trim(parts[j])
    decreases |parts|
  {
    if parts != [] {
      CellsOfFullPieces(parts[1..]);
      assert Cells(parts) == [Trim(parts[0])] + Cells(parts[1..]);
    }
  }

  /** `t.includes('|') && t.split('|').length >= 3`. */
  predicate TableLine(t: string) {
    '|' in t && |SplitOn(t, '|')| >= 3
  }

  /** How `FormattedAnswer` renders one line. */
  datatype LineKind =
    | Blank
    | Header(title: string)
    | Bullet(content: string)
    | Numbered(num: string, content: string)
    | TableRow(cells: seq<string>)
    | Plain(line: string)

  /**
   * What follows a marker that ends before index `from` in a trimmed line: the rest of the line once
   * the white space from `from` on is skipped; non-empty and with no leading white space.
   */
  predicate ItemContent(t: string, from: nat, c: string) {
    c != "" && !IsSpace(c[0]) && from + |c| <= |t| && c == t[|t| - |c|..]
    && forall j :: from <= j < |t| - |c| ==> IsSpace(t[j])
  }

  /** `ItemContent` pins the content down: there is only one way to skip the white space. */
  lemma {:induction false} ItemContentUnique(t: string, from: nat, c: string, d: string)
    requires ItemContent(t, from, c) && ItemContent(t, from, d)
    ensures c == d
  {
  }

  /** A bullet item: the text after the mark and the white space that follows it. */
  function BulletItem(t: string): (r: LineKind)
    requires BulletLine(t) && !IsSpace(t[|t| - 1])
    ensures r.Bullet? && ItemContent(t, 1, r.content)
  {
    AfterSpacesNonEmpty(t, 1);
    Bullet(AfterSpaces(t, 1))
  }

  /** A numbered item: the leading digits, and the text after the `.` or `)` and the white space that follows it. */
  function NumberedItem(t: string): (r: LineKind)
    requires 1 <= LeadingDigits(t) && LeadingDigits(t) + 1 < |t| && !IsSpace(t[|t| - 1])
    ensures r.Numbered? && r.num != "" && (forall i :: 0 <= i < |r.num| ==> IsDigit(r.num[i])) && StartsWith(t, r.num)
    ensures r.num == t[..LeadingDigits(t)]
    ensures ItemContent(t, LeadingDigits(t) + 1, r.content)
  {
    var k := LeadingDigits(t);
    AfterSpacesNonEmpty(t, k + 1);
    Numbered(t[..k], AfterSpaces(t, k + 1))
  }

  /**
   * The classification of one line: the tests are tried on the trimmed line in this order. A bullet
   * starts with a bullet mark, and its content is the rest of the line after the mark and the white
   * space that follows; the number of a numbered item is the whole run of digits the line starts
   * with, and its content the rest after the `.` or `)` and the white space that follows.
   */
  function Classify(line: string): (r: LineKind)
    ensures r.Bullet? ==> BulletLine(Trim(line)) && ItemContent(Trim(line), 1, r.content)
    ensures r.Numbered? ==> var n := r.num;
      n != "" && (forall i :: 0 <= i < |n| ==> IsDigit(n[i])) && StartsWith(Trim(line), n)
      && n == Trim(line)[..LeadingDigits(Trim(line))]
      && ItemContent(Trim(line), LeadingDigits(Trim(line)) + 1, r.content)
  {
    var t := Trim(line);
    if t == "" then Blank
    else if BracketHeader(t) || StarHeader(t) then Header(Label(t))
    else if BulletLine(t) then BulletItem(t)
    else if NumberedLine(t) then NumberedItem(t)
    else if TableLine(t) then TableRow(Cells(SplitOn(t, '|')))
    else Plain(line)
  }

  /** The text `FormattedAnswer` lays out: objects and arrays are stringified, every other truthy value converted. */
  function SafeText(text: Json, stringify: Json -> string): (r: string)
    ensures !text.Arr? && !text.Obj? ==> r == ToText(text)
    ensures text.Str? ==> r == text.s
  {
    if text.Arr? || text.Obj? then stringify(text) else ToText(text)
  }

  /** `FormattedAnswer`: `None` for a falsy text (the dash placeholder), otherwise each line classified. */
  function FormattedAnswer(text: Json, stringify: Json -> string): (r: Option<seq<LineKind>>)
    ensures r.None? <==> !Truthy(text)
    ensures r.Some? ==> var lines := SplitOn(SafeText(text, stringify), '\n');
      |r.value| == |lines| && forall i :: 0 <= i < |lines| ==> r.value[i] == Classify(lines[i])
  {
    if !Truthy(text) then None
    else
      var lines := SplitOn(SafeText(text, stringify), '\n');
      Some(seq(|lines|, i requires 0 <= i < |lines| => Classify(lines[i])))
  }

  /** A table line is one with at least two `|`. */
  lemma TableLineCount(t: string)
    ensures TableLine(t) <==> Count(t, '|') >= 2
  {
    SplitOnLength(t, '|');
    if '|' !in t {
      CountAbsent(t, '|');
    }
  }

  /** The trimmed line is non-empty and has neither header form: the tests after the header test are reached. */
  predicate PastHeader(t: string) {
    t != "" && !BracketHeader(t) && !StarHeader(t)
  }

  /**
   * A line is blank exactly when it is all white space, and a header exactly when its trimmed text
   * has a header form; the title is the label of the trimmed text and has no `**`.
   */
  lemma ClassifyBlankOrHeader(line: string)
    ensures Classify(line).Blank? <==> AllSpace(line)
    ensures Classify(line).Header? <==> !AllSpace(line) && (BracketHeader(Trim(line)) || StarHeader(Trim(line)))
    ensures Classify(line).Header? ==> Classify(line).title == Label(Trim(line))
    ensures Classify(line).Header? ==> NoDoubleStar(Classify(line).title)
  {
    LabelHasNoDoubleStar(Trim(line));
  }

  /**
   * Past the header test, a bullet line is a bullet; a numbered line that is not a bullet is a
   * numbered item; and nothing else is either.
   */
  lemma ClassifyBulletOrNumbered(line: string)
    ensures Classify(line).Bullet? <==> PastHeader(Trim(line)) && BulletLine(Trim(line))
    ensures Classify(line).Numbered? <==> PastHeader(Trim(line)) && !BulletLine(Trim(line)) && NumberedLine(Trim(line))
  {
  }

  /**
   * A line that is none of blank, header, bullet or numbered is a table row exactly when it is a
   * table line, with the trimmed pieces between its bars as cells, and otherwise the line itself,
   * untouched. A table row has at least two `|`.
   */
  lemma ClassifyTableOrPlain(line: string)
    ensures var t := Trim(line);
      Classify(line).TableRow? <==> PastHeader(t) && !BulletLine(t) && !NumberedLine(t) && TableLine(t)
    ensures var t := Trim(line);
      Classify(line).Plain? <==> PastHeader(t) && !BulletLine(t) && !NumberedLine(t) && !TableLine(t)
    ensures Classify(line).TableRow? ==> Classify(line).cells == Cells(SplitOn(Trim(line), '|'))
    ensures Classify(line).TableRow? ==> Count(Trim(line), '|') >= 2
    ensures Classify(line).Plain? ==> Classify(line).line == line
  {
    TableLineCount(Trim(line));
  }

  /** In a trimmed line, what follows a white-space character is never empty. */
  lemma {:induction false} AfterSpacesNonEmpty(t: string, i: nat)
    requires 0 < i < |t| && !IsSpace(t[|t| - 1])
    ensures AfterSpaces(t, i) != ""
    decreases |t| - i
  {
    if IsSpace(t[i]) {
      AfterSpacesNonEmpty(t, i + 1);
    }
  }

  /** A parsed answer is laid out from its own text: its truthy answer is a string, so stringifying never happens. */
  lemma ParsedAnswerIsNeverStringified(text: string, utterance: string, parse: JsonParser,
                                      f: Json -> string, g: Json -> string)
    ensures var p := ParseAIResponse(text, utterance, parse);
      FormattedAnswer(p.answer, f) == FormattedAnswer(p.answer, g)
      && (FormattedAnswer(p.answer, f).Some? ==> SafeText(p.answer, f) == p.answer.s)
  {
  }

  /** The lines laid out are the answer text cut at every newline: joined back, they give the text. */
  lemma FormattedLinesCoverText(text: Json, stringify: Json -> string)
    requires Truthy(text)
    ensures Join(SplitOn(SafeText(text, stringify), '\n'), "\n") == SafeText(text, stringify)
  {
    SplitOnJoin(SafeText(text, stringify), '\n');
  }

  // ---------------------------------------------------------------- copy, status, view

  /** `copyAnswer(entry)`: the question and the answer, then the code snippet when there is one. */
  function CopyAnswerText(entry: Parsed): (r: string)
    ensures Contains(r, ToText(entry.question)) && Contains(r, ToText(entry.answer))
  {
    var head := CopyHead(ToText(entry.question), ToText(entry.answer));
    var r := head + CodeBlock(entry.codeSnippet);
    assert r[..|head|] == head;
    ContainsInPrefix(r, head, ToText(entry.question));
    ContainsInPrefix(r, head, ToText(entry.answer));
    r
  }

  /** The question line, a blank line and the answer line. */
  function CopyHead(q: string, a: string): (h: string)
    ensures Contains(h, q) && Contains(h, a)
    ensures EndsWith(h, "\n\nA: " + a)
  {
    var h := "Q: " + q + "\n\nA: " + a;
    assert OccursAt(h, q, 3);
    assert OccursAt(h, a, |h| - |a|);
    assert h == "Q: " + q + ("\n\nA: " + a);
    h
  }

  /** The code block appended when there is a code snippet. */
  function CodeBlock(code: Json): string {
    if Truthy(code) then "\n\nCode:\n" + ToText(code) else ""
  }

  /** What a prefix contains, the whole contains. */
  lemma ContainsInPrefix(s: string, head: string, p: string)
    requires StartsWith(s, head) && Contains(head, p)
    ensures Contains(s, p)
  {
    var i: nat :| i <= |head| && OccursAt(head, p, i);
    assert s[i..i + |p|] == head[i..i + |p|];
    assert OccursAt(s, p, i);
  }

  /**
   * The copied text starts with the question line, carries the answer after a blank line, and ends with
   * the code block exactly when there is a code snippet (with the answer otherwise).
   */
  lemma CopyAnswerTextShape(entry: Parsed)
    ensures var text, q, a := CopyAnswerText(entry), ToText(entry.question), ToText(entry.answer);
      && StartsWith(text, "Q: " + q + "\n\nA: " + a)
      && (Truthy(entry.codeSnippet) ==> EndsWith(text, "\n\nCode:\n" + ToText(entry.codeSnippet)))
      && (!Truthy(entry.codeSnippet) ==> EndsWith(text, "\n\nA: " + a))
  {
    var text, q, a := CopyAnswerText(entry), ToText(entry.question), ToText(entry.answer);
    var head, tail := CopyHead(q, a), CodeBlock(entry.codeSnippet);
    assert text == head + tail;
    assert text[..|head|] == head;
    assert text[|text| - |tail|..] == tail;
  }

  predicate EndsWith(s: string, suffix: string) {
    |suffix| <= |s| && s[|s| - |suffix|..] == suffix
  }

  datatype Status = Paused | Processing | Listening

  /** The status bar's state: paused while not listening, else processing while a chunk is transcribed. */
  function StatusOf(isListening: bool, isTranscribing: bool): (s: Status)
    ensures s == Paused <==> !isListening
    ensures s == Processing <==> isListening && isTranscribing
    ensures s == Listening <==> isListening && !isTranscribing
  {
    if isListening then (if isTranscribing then Processing else Listening) else Paused
  }

  datatype View = SetupView | MainView

  const SetupFlagKey: string := "hasCompletedSetup"

  /** The settings reply at start-up switches to the main view when setup was completed or any key is set. */
  function ViewAfterSettings(view: View, reply: Option<IpcReply<Json>>): (r: View)
    ensures r == view || r == MainView
    ensures view == MainView ==> r == MainView
    ensures r != view ==> reply.Some? && reply.value.Success? && Truthy(reply.value.data)
  {
    match reply
    case Some(Success(d)) =>
      if Truthy(d) && (Truthy(Property(d, SetupFlagKey))
                       || Truthy(Property(d, "openaiApiKey")) || Truthy(Property(d, "groqApiKey"))
                       || Truthy(Property(d, "anthropicApiKey")))
      then MainView else view
    case _ => view
  }

  /** The settings that open the main view when one of them is truthy. */
  const MainViewKeys: seq<string> := [SetupFlagKey, "openaiApiKey", "groqApiKey", "anthropicApiKey"]

  /** Starting from the wizard, the main view is chosen exactly when the settings object has the setup flag or one of the three keys. */
  lemma MainViewExactly(reply: Option<IpcReply<Json>>)
    ensures ViewAfterSettings(SetupView, reply) == MainView <==>
      reply.Some? && reply.value.Success? && reply.value.data.Obj?
      && exists i :: 0 <= i < |MainViewKeys| && Truthy(Lookup(reply.value.data.members, MainViewKeys[i]))
  {
    if reply.Some? && reply.value.Success? && reply.value.data.Obj? {
      var ms := reply.value.data.members;
      if Truthy(Lookup(ms, SetupFlagKey)) {
        assert Truthy(Lookup(ms, MainViewKeys[0]));
      } else if Truthy(Lookup(ms, "openaiApiKey")) {
        assert Truthy(Lookup(ms, MainViewKeys[1]));
      } else if Truthy(Lookup(ms, "groqApiKey")) {
        assert Truthy(Lookup(ms, MainViewKeys[2]));
      } else if Truthy(Lookup(ms, "anthropicApiKey")) {
        assert Truthy(Lookup(ms, MainViewKeys[3]));
      }
    }
  }

  // ---------------------------------------------------------------- answer state

  const FailedAnswerMessage: string := "Failed to get answer"

  /**
   * One entry of the answer history: `Date.now().toString()` as its id, the time it was added (`new Date()`,
   * as milliseconds), then the answer's fields.
   */
  datatype HistoryEntry = HistoryEntry(id: string, timestamp: int, data: Parsed)

  /** The silence handler's request: the trimmed live text and the trimmed transcript, unless both are blank. */
  function SilenceRequest(liveText: string, transcript: string): (r: Option<(string, string)>)
    ensures r.None? <==> AllSpace(liveText) && AllSpace(transcript)
    ensures r.Some? ==> r.value == (Trim(liveText), Trim(transcript))
  {
    var utterance, context := Trim(liveText), Trim(transcript);
    if utterance == "" && context == "" then None else Some((utterance, context))
  }

  /**
   * What the silence handler finally sends: the trimmed live text as utterance when it has content,
   * else the tail of the transcript; the trimmed transcript as context when it has content, else the
   * live text.
   */
  lemma SilenceRequestSent(liveText: string, transcript: string,
                           getAIAnswer: AnswerRequest -> Option<IpcReply<Parsed>>)
    requires SilenceRequest(liveText, transcript).Some?
    ensures var (u, c) := SilenceRequest(liveText, transcript).value;
      RequestAnswer(true, Str(u), Str(c), getAIAnswer).1 == [RequestFor(u, c)]
  {
    TrimmedTextOfTrim(liveText);
    TrimmedTextOfTrim(transcript);
  }

  /** An already trimmed string passes through `String(v || '').trim()` unchanged. */
  lemma TrimmedTextOfTrim(s: string)
    ensures TrimmedText(Str(Trim(s))) == Trim(s)
  {
    TrimIdempotent(s);
  }

  /** The answer state of the control panel. */
  class AnswerPanel {
    var answerHistory: seq<HistoryEntry>
    var isAnswerLoading: bool
    var answerError: Option<string>

    constructor ()
      ensures answerHistory == [] && !isAnswerLoading && answerError == None
    {
      answerHistory := [];
      isAnswerLoading := false;
      answerError := None;
    }

    /** `addAnswerToHistory`: the new entry goes first, the earlier ones follow in order; loading and error are cleared. */
    method AddAnswerToHistory(data: Parsed, now: nat)
      modifies this`answerHistory, this`isAnswerLoading, this`answerError
      ensures answerHistory == [HistoryEntry(NatToString(now), now, data)] + old(answerHistory)
      ensures !isAnswerLoading && answerError == None
    {
      answerHistory := [HistoryEntry(NatToString(now), now, data)] + answerHistory;
      answerError := None;
      isAnswerLoading := false;
    }

    /**
     * The part of `onSilence` before its `await`: with nothing to ask it changes nothing; otherwise it
     * clears the error, starts loading and returns the arguments of `requestAnswer`.
     */
    method BeginOnSilence(liveText: string, transcript: string) returns (request: Option<(string, string)>)
      modifies this`isAnswerLoading, this`answerError
      ensures request == SilenceRequest(liveText, transcript)
      ensures request.None? ==> isAnswerLoading == old(isAnswerLoading) && answerError == old(answerError)
      ensures request.Some? ==> isAnswerLoading && answerError == None
    {
      var utterance := Trim(liveText);
      var context := Trim(transcript);
      if utterance == "" && context == "" {
        return None;
      }
      answerError := None;
      isAnswerLoading := true;
      request := Some((utterance, context));
    }

    /**
     * The rest of `onSilence`: a thrown error is recorded (with a default message) and ends loading;
     * any returned value is ignored, so loading then ends only when an answer reaches the history.
     */
    method FinishOnSilence(outcome: Outcome)
      modifies this`isAnswerLoading, this`answerError
      ensures outcome.Thrown? ==>
        !isAnswerLoading && answerError == Some(if outcome.message != "" then outcome.message else FailedAnswerMessage)
      ensures !outcome.Thrown? ==> isAnswerLoading == old(isAnswerLoading) && answerError == old(answerError)
    {
      if outcome.Thrown? {
        answerError := Some(if outcome.message != "" then outcome.message else FailedAnswerMessage);
        isAnswerLoading := false;
      }
    }
  }
}
