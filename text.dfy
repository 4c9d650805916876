/** String operations of JavaScript that the source relies on: trim, \s, toLowerCase, slice, split and join. */
module Text {

  /** The code points JavaScript counts as WhiteSpace or LineTerminator: what `trim` removes and what `\s` matches. */
  predicate IsSpace(c: char) {
    c == '\t' || c == '\n' || c == '\U{000B}' || c == '\U{000C}' || c == '\r' || c == ' '
    || c == '\U{00A0}' || c == '\U{1680}' || ('\U{2000}' <= c <= '\U{200A}')
    || c == '\U{2028}' || c == '\U{2029}' || c == '\U{202F}' || c == '\U{205F}'
    || c == '\U{3000}' || c == '\U{FEFF}'
  }

  predicate AllSpace(s: string) {
    forall i :: 0 <= i < |s| ==> IsSpace(s[i])
  }

  /** Number of leading white-space characters. */
  function LeadingSpaces(s: string): (k: nat)
    ensures k <= |s|
    ensures AllSpace(s[..k])
    ensures k < |s| ==> !IsSpace(s[k])
  {
    if s == [] || !IsSpace(s[0]) then 0
    else
      var k := 1 + LeadingSpaces(s[1..]);
      assert s[..k] == [s[0]] + s[1..][..k - 1];
      k
  }

  /** Index just past the last character that is not white space (0 when there is none). */
  function ContentEnd(s: string): (k: nat)
    ensures k <= |s|
    ensures AllSpace(s[k..])
    ensures k > 0 ==> !IsSpace(s[k - 1])
  {
    if s == [] || !IsSpace(s[|s| - 1]) then |s|
    else
      var k := ContentEnd(s[..|s| - 1]);
      assert s[k..] == s[..|s| - 1][k..] + [s[|s| - 1]];
      k
  }

  /** `String.prototype.trim`: the input without its leading and trailing white space. */
  function Trim(s: string): (r: string)
    ensures r == [] <==> AllSpace(s)
    ensures r != [] ==> !IsSpace(r[0]) && !IsSpace(r[|r| - 1])
    ensures LeadingSpaces(s) + |r| <= |s|
    ensures r == s[LeadingSpaces(s)..LeadingSpaces(s) + |r|]
    ensures AllSpace(s[LeadingSpaces(s) + |r|..])
  {
    var a := LeadingSpaces(s);
    if a == |s| then
      assert s[..a] == s;
      []
    else
      TrimBounds(s);
      s[a..ContentEnd(s)]
  }

  lemma TrimBounds(s: string)
    requires LeadingSpaces(s) < |s|
    ensures LeadingSpaces(s) < ContentEnd(s)
    ensures !AllSpace(s)
  {
    var a, e := LeadingSpaces(s), ContentEnd(s);
    assert !IsSpace(s[a]);
  }

  /** A string that neither starts nor ends with white space is its own trim. */
  lemma TrimUnpadded(s: string)
    requires s != [] && !IsSpace(s[0]) && !IsSpace(s[|s| - 1])
    ensures Trim(s) == s
  {
    assert LeadingSpaces(s) == 0 && ContentEnd(s) == |s|;
    assert s[0..|s|] == s;
  }

  /** One white-space character on each side of unpadded text is what trimming removes. */
  lemma TrimOnePadding(s: string)
    requires |s| >= 3 && IsSpace(s[0]) && IsSpace(s[|s| - 1]) && !IsSpace(s[1]) && !IsSpace(s[|s| - 2])
    ensures Trim(s) == s[1..|s| - 1]
  {
    assert LeadingSpaces(s[1..]) == 0;
    assert LeadingSpaces(s) == 1;
    assert ContentEnd(s[..|s| - 1]) == |s| - 1;
    assert ContentEnd(s) == |s| - 1;
  }

  /** Trimming twice is trimming once. */
  lemma TrimIdempotent(s: string)
    ensures Trim(Trim(s)) == Trim(s)
  {
    var t := Trim(s);
    if t != [] {
      assert LeadingSpaces(t) == 0;
    }
  }

  /** ASCII case folding, as `toLowerCase` does for ASCII letters. */
  function LowerChar(c: char): char {
    if 'A' <= c <= 'Z' then (c as int + 32) as char else c
  }

  function ToLower(s: string): (r: string)
    ensures |r| == |s|
    ensures forall i :: 0 <= i < |s| ==> r[i] == LowerChar(s[i])
  {
    seq(|s|, i requires 0 <= i < |s| => LowerChar(s[i]))
  }

  /** `s.length`: JavaScript counts UTF-16 code units, two for a character outside the Basic Multilingual Plane. */
  function Utf16Length(s: string): (n: nat)
    ensures |s| <= n <= 2 * |s|
  {
    if s == [] then 0 else (if s[0] as int >= 0x1_0000 then 2 else 1) + Utf16Length(s[1..])
  }

  /** ASCII case folding keeps every character in its plane, so the JavaScript length is unchanged. */
  lemma {:induction false} Utf16LengthOfLower(s: string)
    ensures Utf16Length(ToLower(s)) == Utf16Length(s)
  {
    if s != [] {
      Utf16LengthOfLower(s[1..]);
      assert ToLower(s)[1..] == ToLower(s[1..]);
    }
  }

  predicate StartsWith(s: string, prefix: string) {
    |prefix| <= |s| && s[..|prefix|] == prefix
  }

  /** p occurs in s at index i. */
  predicate OccursAt(s: string, p: string, i: nat) {
    i + |p| <= |s| && s[i..i + |p|] == p
  }

  /** `s.includes(p)`. */
  predicate Contains(s: string, p: string) {
    exists i: nat | i <= |s| :: OccursAt(s, p, i)
  }

  /** `s.slice(0, n)`. */
  function Take(s: string, n: nat): (r: string)
    ensures |r| <= n && |r| <= |s|
    ensures r == s[..|r|]
    ensures |s| <= n ==> r == s
  {
    if |s| <= n then s else s[..n]
  }

  /** `s.slice(-n)` for n > 0: the last n characters, or all of them. */
  function TakeLast(s: string, n: nat): (r: string)
    ensures |r| <= n && |r| <= |s|
    ensures r == s[|s| - |r|..]
    ensures |s| <= n ==> r == s
    ensures |s| > n ==> |r| == n
    ensures s == s[..|s| - |r|] + r
  {
    if |s| <= n then s else s[|s| - n..]
  }

  /** `parts.join(sep)`. */
  function Join(parts: seq<string>, sep: string): string
  {
    if |parts| == 0 then ""
    else if |parts| == 1 then parts[0]
    else parts[0] + sep + Join(parts[1..], sep)
  }

  /** Every part occurs in the joined string, at a separator boundary. */
  lemma {:induction false} JoinContainsPart(parts: seq<string>, sep: string, k: nat)
    requires k < |parts|
    ensures Contains(Join(parts, sep), parts[k])
  {
    var j := Join(parts, sep);
    if |parts| == 1 || k == 0 {
      assert OccursAt(j, parts[0], 0);
    } else {
      JoinContainsPart(parts[1..], sep, k - 1);
      var rest := Join(parts[1..], sep);
      var i: nat :| i <= |rest| && OccursAt(rest, parts[k], i);
      var off := |parts[0]| + |sep|;
      assert j == parts[0] + sep + rest;
      forall m | 0 <= m < |parts[k]| ensures j[off + i + m] == parts[k][m] {
        assert rest[i..i + |parts[k]|][m] == parts[k][m];
      }
      assert j[off + i..off + i + |parts[k]|] == parts[k];
      assert OccursAt(j, parts[k], off + i);
    }
  }

  /** A substring of a substring is a substring. */
  lemma ContainsTransitive(s: string, t: string, p: string)
    requires Contains(s, t) && Contains(t, p)
    ensures Contains(s, p)
  {
    var i: nat :| i <= |s| && OccursAt(s, t, i);
    var j: nat :| j <= |t| && OccursAt(t, p, j);
    forall k | 0 <= k < |p| ensures s[i + j + k] == p[k] {
      assert t[j..j + |p|][k] == p[k];
      assert s[i..i + |t|][j + k] == t[j + k];
    }
    assert s[i + j..i + j + |p|] == p;
    assert OccursAt(s, p, i + j);
  }

  function DigitChar(d: nat): char
    requires d < 10
  {
    "0123456789"[d]
  }

  function NatToString(n: nat): (r: string)
    ensures |r| >= 1
    decreases n
  {
    if n < 10 then [DigitChar(n)] else NatToString(n / 10) + [DigitChar(n % 10)]
  }

  /** `String(n)` for an integer-valued number. */
  function IntToString(n: int): (r: string)
    ensures |r| >= 1
  {
    if n < 0 then "-" + NatToString(-n) else NatToString(n)
  }

  function IndexOf(s: string, c: char): (k: nat)
    requires c in s
    ensures k < |s| && s[k] == c && c !in s[..k]
  {
    if s[0] == c then 0
    else
      var k := 1 + IndexOf(s[1..], c);
      assert s[..k] == [s[0]] + s[1..][..k - 1];
      k
  }

  /** `s.split(c)` for a one-character separator. */
  function SplitOn(s: string, c: char): (r: seq<string>)
    ensures |r| >= 1
    ensures forall i :: 0 <= i < |r| ==> c !in r[i]
    decreases |s|
  {
    if c !in s then [s]
    else
      var i := IndexOf(s, c);
      [s[..i]] + SplitOn(s[i + 1..], c)
  }

  /** Splitting on a character and joining with it gives back the input. */
  lemma {:induction false} SplitOnJoin(s: string, c: char)
    ensures Join(SplitOn(s, c), [c]) == s
    decreases |s|
  {
    if c in s {
      var i := IndexOf(s, c);
      SplitOnJoin(s[i + 1..], c);
      var rest := SplitOn(s[i + 1..], c);
      assert SplitOn(s, c) == [s[..i]] + rest;
      assert s == s[..i] + [c] + s[i + 1..];
    }
  }

  /** Number of occurrences of c in s. */
  function Count(s: string, c: char): nat {
    if s == [] then 0 else (if s[0] == c then 1 else 0) + Count(s[1..], c)
  }

  lemma {:induction false} CountSplit(s: string, i: nat, c: char)
    requires i <= |s|
    ensures Count(s, c) == Count(s[..i], c) + Count(s[i..], c)
  {
    if i > 0 {
      CountSplit(s[1..], i - 1, c);
      assert s[1..][..i - 1] == s[..i][1..];
      assert s[1..][i - 1..] == s[i..];
    }
  }

  lemma {:induction false} CountAbsent(s: string, c: char)
    requires c !in s
    ensures Count(s, c) == 0
  {
    if s != [] {
      assert forall x :: x in s[1..] ==> x in s;
      CountAbsent(s[1..], c);
    }
  }

  /** `s.split(c)` has one more part than s has separators. */
  lemma {:induction false} SplitOnLength(s: string, c: char)
    ensures |SplitOn(s, c)| == Count(s, c) + 1
    decreases |s|
  {
    if c !in s {
      CountAbsent(s, c);
    } else {
      var i := IndexOf(s, c);
      SplitOnLength(s[i + 1..], c);
      CountSplit(s, i, c);
      CountAbsent(s[..i], c);
      assert s[i..][1..] == s[i + 1..];
    }
  }

  /** Index of the first white-space character, or `|s|` when there is none. */
  function FirstSpace(s: string): (k: nat)
    ensures k <= |s|
    ensures forall m :: 0 <= m < k ==> !IsSpace(s[m])
    ensures k < |s| ==> IsSpace(s[k])
  {
    if s == [] || IsSpace(s[0]) then 0 else 1 + FirstSpace(s[1..])
  }

  /** `s.split(/\s+/)`: the pieces between maximal runs of white space (empty pieces at either end kept). */
  function SplitWs(s: string): (r: seq<string>)
    ensures |r| >= 1
    ensures forall k :: 0 <= k < |r| ==> forall m :: 0 <= m < |r[k]| ==> !IsSpace(r[k][m])
    decreases |s|
  {
    var i := FirstSpace(s);
    if i == |s| then [s]
    else
      var j := i + LeadingSpaces(s[i..]);
      [s[..i]] + SplitWs(s[j..])
  }

  /** `.filter(Boolean).length` over a list of strings. */
  function NonEmptyCount(parts: seq<string>): (n: nat)
    ensures n <= |parts|
  {
    if parts == [] then 0 else (if parts[0] == [] then 0 else 1) + NonEmptyCount(parts[1..])
  }

  /** The word count both transcript hooks display: `split(/\s+/).filter(Boolean).length`. */
  function WordCount(s: string): nat {
    NonEmptyCount(SplitWs(s))
  }

  /**
   * Reference definition of a word count: the positions holding a non-space character that is first
   * or follows white space. `afterSpace` says whether the text before `s` ends in white space (or is empty).
   */
  function WordStarts(s: string, afterSpace: bool): nat {
    if s == [] then 0
    else (if afterSpace && !IsSpace(s[0]) then 1 else 0) + WordStarts(s[1..], IsSpace(s[0]))
  }

  lemma {:induction false} WordStartsAppend(a: string, b: string, afterSpace: bool)
    ensures WordStarts(a + b, afterSpace) ==
      WordStarts(a, afterSpace) + WordStarts(b, if a == [] then afterSpace else IsSpace(a[|a| - 1]))
  {
    if a == [] {
      assert a + b == b;
    } else {
      assert (a + b)[0] == a[0];
      assert (a + b)[1..] == a[1..] + b;
      WordStartsAppend(a[1..], b, IsSpace(a[0]));
      assert a[1..] != [] ==> a[1..][|a[1..]| - 1] == a[|a| - 1];
      var head := if afterSpace && !IsSpace(a[0]) then 1 else 0;
      assert WordStarts(a + b, afterSpace) == head + WordStarts(a[1..] + b, IsSpace(a[0]));
      assert WordStarts(a, afterSpace) == head + WordStarts(a[1..], IsSpace(a[0]));
      var next := if a[1..] == [] then IsSpace(a[0]) else IsSpace(a[1..][|a[1..]| - 1]);
      assert next == IsSpace(a[|a| - 1]);
      assert WordStarts(a[1..] + b, IsSpace(a[0])) == WordStarts(a[1..], IsSpace(a[0])) + WordStarts(b, next);
    }
  }

  lemma {:induction false} WordStartsAllSpace(s: string, afterSpace: bool)
    requires AllSpace(s)
    ensures WordStarts(s, afterSpace) == 0
  {
    if s != [] {
      WordStartsAllSpace(s[1..], IsSpace(s[0]));
    }
  }

  lemma {:induction false} WordStartsNoSpace(s: string, afterSpace: bool)
    requires forall m :: 0 <= m < |s| ==> !IsSpace(s[m])
    ensures WordStarts(s, afterSpace) == if s != [] && afterSpace then 1 else 0
  {
    if s != [] {
      WordStartsNoSpace(s[1..], false);
    }
  }

  /** Splitting on white space and dropping empty pieces counts exactly the starts of words. */
  lemma {:induction false} WordCountCountsWordStarts(s: string)
    ensures WordCount(s) == WordStarts(s, true)
    decreases |s|
  {
    var i := FirstSpace(s);
    if i == |s| {
      assert s[..i] == s;
      WordStartsNoSpace(s, true);
    } else {
      var j := i + LeadingSpaces(s[i..]);
      SpaceRun(s, i, j);
      WordStartsAcrossRun(s, i, j);
      WordCountCountsWordStarts(s[j..]);
      var parts := SplitWs(s);
      assert parts == [s[..i]] + SplitWs(s[j..]);
      assert parts[1..] == SplitWs(s[j..]);
    }
  }

  /** A word before the first white-space run counts once; the run itself counts nothing. */
  lemma {:induction false} WordStartsAcrossRun(s: string, i: nat, j: nat)
    requires i < j <= |s| && AllSpace(s[i..j]) && IsSpace(s[j - 1])
    requires forall m :: 0 <= m < i ==> !IsSpace(s[m])
    ensures WordStarts(s, true) == (if i > 0 then 1 else 0) + WordStarts(s[j..], true)
  {
    var a, b, c := s[..i], s[i..j], s[j..];
    assert s == a + (b + c);
    assert b[|b| - 1] == s[j - 1];
    WordStartsThreeParts(a, b, c);
    assert forall m :: 0 <= m < |a| ==> a[m] == s[m];
    WordStartsNoSpace(a, true);
    WordStartsAllSpace(b, if a == [] then true else IsSpace(a[|a| - 1]));
  }

  /** Word starts of three pieces whose middle one ends in white space. */
  lemma {:induction false} WordStartsThreeParts(a: string, b: string, c: string)
    requires b != [] && IsSpace(b[|b| - 1])
    ensures var p := if a == [] then true else IsSpace(a[|a| - 1]);
      WordStarts(a + (b + c), true) == WordStarts(a, true) + WordStarts(b, p) + WordStarts(c, true)
  {
    var p := if a == [] then true else IsSpace(a[|a| - 1]);
    WordStartsAppend(a, b + c, true);
    WordStartsAppend(b, c, p);
  }

  lemma SpaceRun(s: string, i: nat, j: nat)
    requires i < |s| && IsSpace(s[i]) && j == i + LeadingSpaces(s[i..])
    ensures i < j <= |s| && AllSpace(s[i..j]) && IsSpace(s[j - 1])
  {
    assert s[i..j] == s[i..][..LeadingSpaces(s[i..])];
    assert s[j - 1] == s[i..][..LeadingSpaces(s[i..])][j - 1 - i];
  }
}
