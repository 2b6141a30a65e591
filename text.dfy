/** String helpers the chatbot relies on: Python's `str.isspace`,
    `str.strip` and `str.lower` (the latter on ASCII letters). */
module Text {

  /** The characters Python's `str.isspace()` accepts. */
  predicate IsSpace(c: char) {
    c == ' ' || ('\t' <= c <= '\r') || ('\U{1C}' <= c <= '\U{1F}')
    || c == '\U{85}' || c == '\U{A0}' || c == '\U{1680}'
    || ('\U{2000}' <= c <= '\U{200A}')
    || c == '\U{2028}' || c == '\U{2029}' || c == '\U{202F}'
    || c == '\U{205F}' || c == '\U{3000}'
  }

  /** Length of the longest all-whitespace prefix of `s`. */
  function LeadingSpaces(s: string): (n: nat)
    ensures n <= |s|
    ensures forall i :: 0 <= i < n ==> IsSpace(s[i])
    ensures n < |s| ==> !IsSpace(s[n])
    decreases |s|
  {
    if s == [] || !IsSpace(s[0]) then 0 else 1 + LeadingSpaces(s[1..])
  }

  /** Length of the longest all-whitespace suffix of `s`. */
  function TrailingSpaces(s: string): (n: nat)
    ensures n <= |s|
    ensures forall i :: |s| - n <= i < |s| ==> IsSpace(s[i])
    ensures n < |s| ==> !IsSpace(s[|s| - 1 - n])
    decreases |s|
  {
    if s == [] || !IsSpace(s[|s| - 1]) then 0 else 1 + TrailingSpaces(s[..|s| - 1])
  }

  /** `s.strip()`: `s` without its leading and trailing whitespace. */
  function Strip(s: string): string {
    var n := LeadingSpaces(s);
    s[n..|s| - TrailingSpaces(s[n..])]
  }

  /** The whitespace `TrailingSpaces` counts at the end of a suffix of `s`
      lies at the end of `s`. */
  lemma TrailingOfSuffix(s: string, n: nat)
    requires n <= |s|
    ensures var m := TrailingSpaces(s[n..]);
      && n + m <= |s|
      && (forall i :: |s| - m <= i < |s| ==> IsSpace(s[i]))
      && (m < |s| - n ==> !IsSpace(s[|s| - 1 - m]))
  {
    var rest := s[n..];
    var m := TrailingSpaces(rest);
    forall i | |s| - m <= i < |s| ensures IsSpace(s[i]) {
      assert s[i] == rest[i - n];
    }
    if m < |rest| {
      assert s[|s| - 1 - m] == rest[|rest| - 1 - m];
    }
  }

  /** `Strip` keeps the slice of `s` between its leading and its trailing
      whitespace; the four lemmas below state this piece by piece. */
  lemma StripBound(s: string)
    ensures LeadingSpaces(s) + |Strip(s)| <= |s|
  {
    TrailingOfSuffix(s, LeadingSpaces(s));
  }

  lemma StripChars(s: string)
    ensures forall k :: 0 <= k < |Strip(s)| ==> Strip(s)[k] == s[LeadingSpaces(s) + k]
  {
    TrailingOfSuffix(s, LeadingSpaces(s));
  }

  lemma StripDropsTrailingSpace(s: string)
    ensures forall i :: LeadingSpaces(s) + |Strip(s)| <= i < |s| ==> IsSpace(s[i])
  {
    TrailingOfSuffix(s, LeadingSpaces(s));
  }

  lemma StripLastChar(s: string)
    ensures Strip(s) != [] ==> !IsSpace(Strip(s)[|Strip(s)| - 1])
  {
    TrailingOfSuffix(s, LeadingSpaces(s));
  }

  /** What `Strip` keeps: the slice of `s` from its first to its last
      non-whitespace character; nothing is left exactly when `s` is all
      whitespace. */
  lemma StripSpec(s: string)
    ensures LeadingSpaces(s) + |Strip(s)| <= |s|
    ensures forall k :: 0 <= k < |Strip(s)| ==> Strip(s)[k] == s[LeadingSpaces(s) + k]
    ensures forall i :: 0 <= i < LeadingSpaces(s) ==> IsSpace(s[i])
    ensures forall i :: LeadingSpaces(s) + |Strip(s)| <= i < |s| ==> IsSpace(s[i])
    ensures Strip(s) != [] ==> !IsSpace(Strip(s)[0]) && !IsSpace(Strip(s)[|Strip(s)| - 1])
    ensures Strip(s) == [] <==> forall i :: 0 <= i < |s| ==> IsSpace(s[i])
  {
    StripBound(s);
    StripChars(s);
    StripDropsTrailingSpace(s);
    StripLastChar(s);
    var n := LeadingSpaces(s);
    var r := Strip(s);
    if r != [] {
      assert r[0] == s[n];
    }
  }

  /** `not s.strip()`: the line is empty or whitespace only. */
  predicate IsBlank(s: string) {
    Strip(s) == []
  }

  /** A line with a non-whitespace character is not blank. */
  lemma NotBlank(s: string, i: nat)
    requires i < |s| && !IsSpace(s[i])
    ensures !IsBlank(s)
  {
    StripSpec(s);
  }

  /** `str.lower()` on one character: ASCII capitals become small letters,
      every other character is kept. */
  function LowerChar(c: char): char {
    if 'A' <= c <= 'Z' then (c as int + 32) as char else c
  }

  /** `s.lower()` on ASCII letters. */
  function Lower(s: string): string {
    seq(|s|, i requires 0 <= i < |s| => LowerChar(s[i]))
  }

  /** The only characters `str.lower()` turns into a given small ASCII letter
      are the letter itself and its capital. */
  lemma LowerCharToSmallLetter(c: char, x: char)
    requires 'a' <= x <= 'z'
    ensures LowerChar(c) == x <==> c == x || c as int == x as int - 32
  {
  }

  /** `part` occurs in `whole` starting at position `i`. */
  predicate OccursAt(part: string, whole: string, i: nat) {
    i + |part| <= |whole| && whole[i..i + |part|] == part
  }

  /** `part in whole` for strings. */
  predicate Contains(whole: string, part: string) {
    exists i: nat | i <= |whole| :: OccursAt(part, whole, i)
  }

  /** `sep.join(parts)`. */
  function JoinWith(sep: string, parts: seq<string>): string
    decreases |parts|
  {
    if parts == [] then ""
    else if |parts| == 1 then parts[0]
    else parts[0] + sep + JoinWith(sep, parts[1..])
  }

  /** Position of the first line break in `s`. */
  function NewlineIndex(s: string): (i: nat)
    requires '\n' in s
    ensures i < |s| && s[i] == '\n'
    ensures forall j :: 0 <= j < i ==> s[j] != '\n'
    decreases |s|
  {
    if s[0] == '\n' then 0 else 1 + NewlineIndex(s[1..])
  }

  /** `s.split("\n")`: the pieces between line breaks; always at least one. */
  function SplitLines(s: string): (r: seq<string>)
    ensures |r| >= 1
    decreases |s|
  {
    if '\n' !in s then [s]
    else
      var i := NewlineIndex(s);
      [s[..i]] + SplitLines(s[i + 1..])
  }

  /** Joining lines that hold no line break with line breaks and splitting
      the result gives the lines back. */
  lemma {:induction false} SplitJoinedLines(parts: seq<string>)
    requires parts != []
    requires forall k :: 0 <= k < |parts| ==> '\n' !in parts[k]
    ensures SplitLines(JoinWith("\n", parts)) == parts
    decreases |parts|
  {
    if |parts| > 1 {
      var rest := parts[1..];
      var tail := JoinWith("\n", rest);
      var s := JoinWith("\n", parts);
      var n := |parts[0]|;
      assert s == parts[0] + "\n" + tail;
      assert s[n] == '\n';
      assert '\n' in s;
      var i := NewlineIndex(s);
      assert i == n;
      assert s[..i] == parts[0];
      assert s[i + 1..] == tail;
      SplitJoinedLines(rest);
      assert parts == [parts[0]] + rest;
    }
  }

  /** Joining with a separator free of line breaks keeps a text without line
      breaks: the result is one line. */
  lemma {:induction false} JoinWithoutNewline(sep: string, parts: seq<string>)
    requires '\n' !in sep
    requires forall k :: 0 <= k < |parts| ==> '\n' !in parts[k]
    ensures '\n' !in JoinWith(sep, parts)
    decreases |parts|
  {
    if |parts| > 1 {
      JoinWithoutNewline(sep, parts[1..]);
      var j := JoinWith(sep, parts);
      var t := JoinWith(sep, parts[1..]);
      assert j == parts[0] + sep + t;
      forall k | 0 <= k < |j| ensures j[k] != '\n' {
        if k < |parts[0]| {
          assert j[k] == parts[0][k];
        } else if k < |parts[0]| + |sep| {
          assert j[k] == sep[k - |parts[0]|];
        } else {
          assert j[k] == t[k - |parts[0]| - |sep|];
        }
      }
    } else if |parts| == 1 {
      assert JoinWith(sep, parts) == parts[0];
    }
  }
}
