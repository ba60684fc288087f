/** Literal values as regular expressions (`_expression` in app/modules/config/waf_wizard.py).

    A value is compared byte by byte; the bytes that could mean something to a regular expression,
    a macro or the quoting of a directive are written as \xHH. */
module WafPattern {
  import opened Outcomes
  import opened Bytes

  datatype Operator = Equals | Contains | Begins

  /** What a condition asks of a value of its variable. */
  predicate Satisfies(subject: Bytes, op: Operator, value: Bytes) {
    match op
    case Equals => subject == value
    case Begins => value <= subject
    case Contains => Occurs(value, subject)
  }

  predicate Occurs(value: Bytes, subject: Bytes) {
    exists i :: 0 <= i <= |subject| && value <= subject[i..]
  }

  /** The characters written as they are. */
  predicate IsLiteral(c: char) {
    'a' <= c <= 'z' || 'A' <= c <= 'Z' || '0' <= c <= '9' || c in {'/', '_', '-', ' '}
  }

  function HexDigit(n: nat): (c: char)
    requires n < 16
    ensures HexValue(c) == Some(n)
  {
    "0123456789abcdef"[n]
  }

  function HexValue(c: char): (n: Option<nat>)
    ensures n.Some? ==> n.value < 16
  {
    if '0' <= c <= '9' then Some((c as int) - ('0' as int))
    else if 'a' <= c <= 'f' then Some((c as int) - ('a' as int) + 10)
    else None
  }

  function EncodeByte(b: byte): string {
    if IsLiteral(b as char) then [b as char] else ['\\', 'x', HexDigit(b as int / 16), HexDigit(b as int % 16)]
  }

  function Encode(value: Bytes): string {
    if value == [] then "" else EncodeByte(value[0]) + Encode(value[1..])
  }

  /** The regular expression for a condition. */
  function Pattern(op: Operator, value: Bytes): string {
    (if op.Contains? then "" else "^") + Encode(value) + if op.Equals? then "$" else ""
  }

  // ---------------------------------------------------------------------------------------
  // What such an expression means
  // ---------------------------------------------------------------------------------------

  /** The fragment of regular expressions with literal bytes, \xHH and anchors at the ends. */
  datatype Regex = Regex(atStart: bool, bytes: Bytes, atEnd: bool)

  function Decode(text: string): Option<Bytes> {
    if text == "" then Some([])
    else if text[0] == '\\' then
      if |text| >= 4 && text[1] == 'x' && HexValue(text[2]).Some? && HexValue(text[3]).Some? then
        var rest := Decode(text[4..]);
        if rest.None? then None
        else Some([(HexValue(text[2]).value * 16 + HexValue(text[3]).value) as byte] + rest.value)
      else None
    else if IsLiteral(text[0]) then
      var rest := Decode(text[1..]);
      if rest.None? then None else Some([(text[0] as int) as byte] + rest.value)
    else None
  }

  function Parse(text: string): Option<Regex> {
    if text != "" && text[0] == '^' then ParseOpen(text[1..], true) else ParseOpen(text, false)
  }

  /** The expression behind its start. */
  function ParseOpen(text: string, atStart: bool): Option<Regex> {
    var atEnd := text != "" && text[|text| - 1] == '$';
    var body := Decode(if atEnd then text[..|text| - 1] else text);
    if body.None? then None else Some(Regex(atStart, body.value, atEnd))
  }

  predicate Finds(r: Regex, subject: Bytes) {
    exists i :: 0 <= i <= |subject| && FindsAt(r, subject, i)
  }

  predicate FindsAt(r: Regex, subject: Bytes, i: nat)
    requires i <= |subject|
  {
    r.bytes <= subject[i..] && (r.atStart ==> i == 0) && (r.atEnd ==> i + |r.bytes| == |subject|)
  }

  // ---------------------------------------------------------------------------------------
  // Encoding is faithful and inert
  // ---------------------------------------------------------------------------------------

  /** Nothing that could end a quoted argument, start a macro or mean something to the engine. */
  predicate Inert(c: char) {
    IsLiteral(c) || c == '\\'
  }

  lemma {:induction false} EncodeInert(value: Bytes)
    ensures forall i :: 0 <= i < |Encode(value)| ==> Inert(Encode(value)[i])
    ensures value != [] ==> Encode(value) != ""
  {
    if value != [] {
      EncodeInert(value[1..]);
      HexInert(value[0] as int / 16);
      HexInert(value[0] as int % 16);
    }
  }

  /** Every backslash is the start of a \xHH. */
  lemma {:induction false} EncodeEscapes(value: Bytes)
    ensures forall i :: 0 <= i < |Encode(value)| && Encode(value)[i] == '\\' ==>
              i + 1 < |Encode(value)| && Encode(value)[i + 1] == 'x'
  {
    if value != [] {
      EncodeEscapes(value[1..]);
      HexInert(value[0] as int / 16);
      HexInert(value[0] as int % 16);
    }
  }

  lemma HexInert(n: nat)
    requires n < 16
    ensures IsLiteral(HexDigit(n))
  {
  }

  lemma {:induction false} DecodeEncode(value: Bytes)
    ensures Decode(Encode(value)) == Some(value)
  {
    if value != [] {
      DecodeEncode(value[1..]);
      DecodeStep(value[0], Encode(value[1..]));
      assert value == [value[0]] + value[1..];
    }
  }

  lemma DecodeStep(b: byte, rest: string)
    requires Decode(rest).Some?
    ensures Decode(EncodeByte(b) + rest) == Some([b] + Decode(rest).value)
  {
    if IsLiteral(b as char) {
      DecodeLiteral(b as char, rest);
    } else {
      DecodeHex(b as int / 16, b as int % 16, rest);
      assert b as int == (b as int / 16) * 16 + b as int % 16;
    }
    hide Decode;
  }

  lemma DecodeLiteral(c: char, rest: string)
    requires IsLiteral(c) && Decode(rest).Some?
    ensures Decode([c] + rest) == Some([(c as int) as byte] + Decode(rest).value)
  {
    assert ([c] + rest)[1..] == rest;
  }

  lemma DecodeHex(high: nat, low: nat, rest: string)
    requires high < 16 && low < 16 && Decode(rest).Some?
    ensures Decode(['\\', 'x', HexDigit(high), HexDigit(low)] + rest) ==
              Some([(high * 16 + low) as byte] + Decode(rest).value)
  {
    var text := ['\\', 'x', HexDigit(high), HexDigit(low)] + rest;
    assert text[4..] == rest && text[2] == HexDigit(high) && text[3] == HexDigit(low);
    hide HexDigit;
  }

  /** The engine reads back the operator and the bytes of the condition. */
  lemma ParsePattern(op: Operator, value: Bytes)
    ensures Parse(Pattern(op, value)) == Some(Regex(!op.Contains?, value, op.Equals?))
  {
    var body := Encode(value);
    EncodeInert(value);
    DecodeEncode(value);
    assert body != "" ==> Inert(body[0]) && Inert(body[|body| - 1]);
    ParseAnchored(body, value, op);
    hide Encode, Decode, Parse;
    assert Pattern(op, value) == (if op.Contains? then "" else "^") + body + if op.Equals? then "$" else "";
  }

  lemma ParseAnchored(body: string, value: Bytes, op: Operator)
    requires Decode(body) == Some(value) && (body == "" || (body[0] != '^' && body[|body| - 1] != '$'))
    ensures Parse((if op.Contains? then "" else "^") + body + if op.Equals? then "$" else "")
            == Some(Regex(!op.Contains?, value, op.Equals?))
  {
    hide Decode, ParseOpen, Parse;
    if op.Equals? {
      ParseClosed(body, value);
      ParseCaret(body + "$");
      assert "^" + body + "$" == "^" + (body + "$");
    } else if op.Begins? {
      ParseUnclosed(body, value, true);
      ParseCaret(body);
      assert "^" + body + "" == "^" + body;
    } else {
      ParseUnclosed(body, value, false);
      ParseNoCaret(body);
      assert "" + body + "" == body;
    }
  }

  lemma ParseCaret(text: string)
    ensures Parse("^" + text) == ParseOpen(text, true)
  {
    hide ParseOpen;
    assert ("^" + text)[1..] == text;
  }

  lemma ParseNoCaret(text: string)
    requires text == "" || text[0] != '^'
    ensures Parse(text) == ParseOpen(text, false)
  {
    hide ParseOpen;
  }

  lemma ParseClosed(body: string, value: Bytes)
    requires Decode(body) == Some(value)
    ensures ParseOpen(body + "$", true) == Some(Regex(true, value, true))
  {
    hide Decode;
    var text := body + "$";
    assert text[|text| - 1] == '$' && text[..|text| - 1] == body;
  }

  lemma ParseUnclosed(body: string, value: Bytes, atStart: bool)
    requires Decode(body) == Some(value) && (body == "" || body[|body| - 1] != '$')
    ensures ParseOpen(body, atStart) == Some(Regex(atStart, value, false))
  {
    hide Decode;
  }

  /** The pattern of a condition matches exactly the values that satisfy it. */
  lemma PatternMeans(op: Operator, value: Bytes, subject: Bytes)
    ensures Parse(Pattern(op, value)).Some?
    ensures Finds(Parse(Pattern(op, value)).value, subject) <==> Satisfies(subject, op, value)
  {
    ParsePattern(op, value);
    var r := Regex(!op.Contains?, value, op.Equals?);
    assert subject[0..] == subject;
    if Satisfies(subject, op, value) {
      if op.Contains? {
        var i :| 0 <= i <= |subject| && value <= subject[i..];
        assert FindsAt(r, subject, i);
      } else {
        assert FindsAt(r, subject, 0);
      }
    }
    if Finds(r, subject) {
      var i :| 0 <= i <= |subject| && FindsAt(r, subject, i);
    }
  }

  /** Different conditions on one variable have different patterns. */
  lemma PatternInjective(op: Operator, value: Bytes, op': Operator, value': Bytes)
    requires Pattern(op, value) == Pattern(op', value')
    ensures op == op' && value == value'
  {
    ParsePattern(op, value);
    ParsePattern(op', value');
  }
}
