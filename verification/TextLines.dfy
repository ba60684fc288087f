/** Lines and words of a text, as Python's str sees them. */
module TextLines {

  /** str.isspace for one character. */
  predicate IsSpace(c: char) {
    var n := c as int;
    || 9 <= n <= 13 || 28 <= n <= 32 || n == 0x85 || n == 0xa0 || n == 0x1680 || 0x2000 <= n <= 0x200a
    || n == 0x2028 || n == 0x2029 || n == 0x202f || n == 0x205f || n == 0x3000
  }

  /** Where str.splitlines ends a line. */
  predicate IsBreak(c: char) {
    var n := c as int;
    10 <= n <= 13 || 28 <= n <= 30 || n == 0x85 || n == 0x2028 || n == 0x2029
  }

  function BreakAt(s: string): (n: nat)
    ensures n <= |s|
    ensures n < |s| ==> IsBreak(s[n])
    ensures forall i :: 0 <= i < n ==> !IsBreak(s[i])
  {
    if s == [] || IsBreak(s[0]) then 0 else 1 + BreakAt(s[1..])
  }

  /** The position just behind the first newline, or the length of the text. */
  function LineEnd(text: string): (n: nat)
    ensures n <= |text|
    ensures text != [] ==> n > 0
    ensures forall i :: 0 <= i < n - 1 ==> text[i] != '\n'
    ensures n < |text| ==> text[n - 1] == '\n'
  {
    if text == [] then 0 else if text[0] == '\n' then 1 else 1 + LineEnd(text[1..])
  }

  /** source_lines: physical lines with their terminators, and what follows the last newline. */
  function SourceLines(text: string): seq<string> {
    if text == [] then [] else [text[..LineEnd(text)]] + SourceLines(text[LineEnd(text)..])
  }

  function Join(lines: seq<string>): string {
    if lines == [] then [] else lines[0] + Join(lines[1..])
  }

  function LStrip(s: string): string {
    if s != [] && IsSpace(s[0]) then LStrip(s[1..]) else s
  }

  function RStrip(s: string): string {
    if s != [] && IsSpace(s[|s| - 1]) then RStrip(s[..|s| - 1]) else s
  }

  /** str.strip. */
  function Strip(s: string): string {
    LStrip(RStrip(s))
  }

  function WordEnd(s: string): (n: nat)
    ensures n <= |s|
    ensures s != [] && !IsSpace(s[0]) ==> n > 0
  {
    if s == [] || IsSpace(s[0]) then 0 else 1 + WordEnd(s[1..])
  }

  /** str.split without arguments. */
  function Tokens(s: string): seq<string> {
    if s == [] then []
    else if IsSpace(s[0]) then Tokens(s[1..])
    else [s[..WordEnd(s)]] + Tokens(s[WordEnd(s)..])
  }

  /** line.split('#', 1)[0]. */
  function BeforeHash(s: string): string {
    if s == [] || s[0] == '#' then [] else [s[0]] + BeforeHash(s[1..])
  }

  lemma {:induction false} JoinAppend(a: seq<string>, b: seq<string>)
    ensures Join(a + b) == Join(a) + Join(b)
  {
    if a == [] {
      assert a + b == b;
    } else {
      JoinAppend(a[1..], b);
      assert (a + b)[0] == a[0] && (a + b)[1..] == a[1..] + b;
      Associate(a[0], Join(a[1..]), Join(b));
    }
  }

  lemma Associate(a: string, b: string, c: string)
    ensures a + (b + c) == (a + b) + c
  {
  }

  /** Splitting a text into lines loses nothing. */
  lemma {:induction false} JoinSource(text: string)
    ensures Join(SourceLines(text)) == text
  {
    if text != [] {
      JoinSource(text[LineEnd(text)..]);
    }
  }

  predicate EndsLine(s: string) {
    s != [] && s[|s| - 1] == '\n'
  }

  /** A line: a newline can only be its last character. */
  predicate IsLine(s: string) {
    s != [] && forall i :: 0 <= i < |s| - 1 ==> s[i] != '\n'
  }

  /** Lines of which only the last can lack its newline. */
  predicate Proper(lines: seq<string>) {
    && (forall k :: 0 <= k < |lines| ==> IsLine(lines[k]))
    && forall k :: 0 <= k < |lines| - 1 ==> EndsLine(lines[k])
  }

  lemma {:induction false} SourceProper(text: string)
    ensures Proper(SourceLines(text))
  {
    if text != [] {
      var n := LineEnd(text);
      var rest := SourceLines(text[n..]);
      SourceProper(text[n..]);
      assert rest != [] ==> n < |text|;
      var lines := SourceLines(text);
      forall k | 0 <= k < |lines| ensures IsLine(lines[k]) && (k < |lines| - 1 ==> EndsLine(lines[k])) {
        if k > 0 { assert lines[k] == rest[k - 1]; }
      }
    }
  }

  lemma {:induction false} LineEndOf(line: string, rest: string)
    requires IsLine(line) && (EndsLine(line) || rest == [])
    ensures LineEnd(line + rest) == |line|
  {
    var text := line + rest;
    if |line| == 1 {
      if line[0] != '\n' { assert text == line && text[1..] == []; }
    } else {
      LineEndOf(line[1..], rest);
      assert text[1..] == line[1..] + rest;
    }
  }

  /** Proper lines are what their text splits into. */
  lemma {:induction false} SourceOfJoin(lines: seq<string>)
    requires Proper(lines)
    ensures SourceLines(Join(lines)) == lines
  {
    if lines != [] {
      var rest := Join(lines[1..]);
      assert Proper(lines[1..]);
      SourceOfJoin(lines[1..]);
      if |lines| == 1 { assert rest == []; }
      LineEndOf(lines[0], rest);
      assert (lines[0] + rest)[..|lines[0]|] == lines[0] && (lines[0] + rest)[|lines[0]|..] == rest;
    }
  }
}
