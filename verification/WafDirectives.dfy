/** Directives as the wizard writes them and as the engine reads them (app/modules/config/waf_wizard.py).

    An argument in double quotes ends at the first quote without a backslash before it; a backslash
    before a quote or a backslash is dropped, any other is kept. */
module WafDirectives {
  import opened Outcomes

  datatype Act =
    | Id(id: nat) | Phase(phase: nat) | NoTransformation | Pass | NoLog | DenyIt | Status(code: nat) | LogIt
    | Msg(rule: nat) | Chain | Remove(rule: nat, parameter: string)

  /** SecRule, or SecAction, which always matches. */
  datatype Directive = SecRule(variable: string, operator: string, acts: seq<Act>) | SecAction(acts: seq<Act>)

  // ---------------------------------------------------------------------------------------
  // Quoted arguments
  // ---------------------------------------------------------------------------------------

  /** The argument that begins behind a quote, and what follows its end. */
  function Quoted(s: string): Option<(string, string)> {
    if s == "" then None
    else if s[0] == '"' then Some(("", s[1..]))
    else
      var escape := s[0] == '\\' && |s| > 1 && s[1] in {'"', '\\'};
      var rest := Quoted(if escape then s[2..] else s[1..]);
      if rest.None? then None else Some(([if escape then s[1] else s[0]] + rest.value.0, rest.value.1))
  }

  /** No quote, no two backslashes in a row, and none at the end. */
  predicate Quotable(s: string) {
    && (forall i :: 0 <= i < |s| ==> s[i] != '"')
    && (forall i :: 0 <= i < |s| - 1 ==> !(s[i] == '\\' && s[i + 1] == '\\'))
    && (s != "" ==> s[|s| - 1] != '\\')
  }

  lemma {:induction false} QuotableRead(s: string, rest: string)
    requires Quotable(s)
    ensures Quoted(s + "\"" + rest) == Some((s, rest))
  {
    var text := s + "\"" + rest;
    if s == "" {
      assert text[0] == '"' && text[1..] == rest;
    } else {
      QuotableRead(s[1..], rest);
      assert text[0] == s[0] && text[1..] == s[1..] + "\"" + rest;
      assert |s| > 1 ==> text[1] == s[1];
      assert [s[0]] + s[1..] == s;
    }
  }

  function Backslashes(n: nat): string {
    seq(n, _ => '\\')
  }

  /** What is read cannot be what was written with backslashes before it. */
  lemma {:induction false} NoShift(x: string, rest: string, n: nat)
    requires n > 0
    ensures Quoted(x + "\"" + rest).Some? ==> Quoted(x + "\"" + rest).value.0 != Backslashes(n) + x
    decreases |x|
  {
    var text, wanted := x + "\"" + rest, Backslashes(n) + x;
    assert wanted[0] == '\\';
    if x != "" {
      assert text[0] == x[0];
      if |x| > 1 && x[1] in {'"', '\\'} {
        assert text[1] == x[1] && text[2..] == x[2..] + "\"" + rest;
        NoShift(x[2..], rest, n + 1);
        if x[0] == x[1] == '\\' { assert wanted[1..] == Backslashes(n + 1) + x[2..]; }
      } else if |x| > 1 {
        assert text[1] == x[1] && text[1..] == x[1..] + "\"" + rest;
        NoShift(x[1..], rest, n);
        if x[0] == '\\' { assert wanted[1..] == Backslashes(n) + x[1..]; }
      } else {
        assert text[1] == '"';
      }
    }
  }

  /** An argument is read back exactly if it is quotable. */
  lemma {:induction false} QuotableIff(s: string, rest: string)
    ensures Quotable(s) <==> Quoted(s + "\"" + rest).Some? && Quoted(s + "\"" + rest).value.0 == s
    ensures Quotable(s) ==> Quoted(s + "\"" + rest) == Some((s, rest))
  {
    if Quotable(s) {
      QuotableRead(s, rest);
    } else {
      NotQuotable(s, rest);
    }
  }

  lemma QuotableBehind(head: string, s: string)
    requires s != "" && forall i :: 0 <= i < |head| ==> head[i] !in {'"', '\\'}
    ensures Quotable(head + s) <==> Quotable(s)
  {
    var text := head + s;
    assert text[|text| - 1] == s[|s| - 1];
    if Quotable(text) {
      forall i | 0 <= i < |s| ensures s[i] != '"' && (i < |s| - 1 ==> !(s[i] == '\\' && s[i + 1] == '\\')) {
        assert s[i] == text[|head| + i];
        if i < |s| - 1 { assert s[i + 1] == text[|head| + i + 1]; }
      }
    }
    if Quotable(s) {
      forall i | 0 <= i < |text|
        ensures text[i] != '"' && (i < |text| - 1 ==> !(text[i] == '\\' && text[i + 1] == '\\'))
      {
        if i >= |head| {
          assert text[i] == s[i - |head|];
          if i < |text| - 1 { assert text[i + 1] == s[i - |head| + 1]; }
        }
      }
    }
  }

  lemma {:induction false} NotQuotable(s: string, rest: string)
    requires !Quotable(s)
    ensures Quoted(s + "\"" + rest).Some? ==> Quoted(s + "\"" + rest).value.0 != s
  {
    var text := s + "\"" + rest;
    assert text[0] == s[0];
    if s[0] != '"' {
      if s[0] == '\\' && |s| == 1 {
        assert text[1] == '"';
      } else if s[0] == '\\' && s[1] in {'"', '\\'} {
        assert text[1] == s[1] && text[2..] == s[2..] + "\"" + rest;
        if s[1] == '\\' {
          NoShift(s[2..], rest, 1);
          assert s[1..] == Backslashes(1) + s[2..];
        }
      } else {
        assert text[1..] == s[1..] + "\"" + rest;
        assert |s| > 1 ==> text[1] == s[1];
        NotQuotable(s[1..], rest);
      }
    }
  }

  // ---------------------------------------------------------------------------------------
  // Numbers, actions and lines
  // ---------------------------------------------------------------------------------------

  function Digit(n: nat): (c: char)
    requires n < 10
    ensures '0' <= c <= '9' && c as int - '0' as int == n
  {
    "0123456789"[n]
  }

  function Show(n: nat): (s: string)
    ensures s != "" && forall i :: 0 <= i < |s| ==> '0' <= s[i] <= '9'
  {
    if n < 10 then [Digit(n)] else Show(n / 10) + [Digit(n % 10)]
  }

  function ReadNat(s: string): Option<nat> {
    if s == "" || !('0' <= s[|s| - 1] <= '9') then None
    else
      var last: nat := s[|s| - 1] as int - '0' as int;
      if |s| == 1 then Some(last)
      else
        var front := ReadNat(s[..|s| - 1]);
        if front.None? then None else Some(front.value * 10 + last)
  }

  lemma {:induction false} ReadShow(n: nat)
    ensures ReadNat(Show(n)) == Some(n)
  {
    if n >= 10 {
      ReadShow(n / 10);
      assert Show(n)[..|Show(n)| - 1] == Show(n / 10);
    }
  }

  const MESSAGE: string := "'Roxy-WI WAF rule "

  function ActText(a: Act): string {
    match a
    case Id(n) => "id:" + Show(n)
    case Phase(n) => "phase:" + Show(n)
    case NoTransformation => "t:none"
    case Pass => "pass"
    case NoLog => "nolog"
    case DenyIt => "deny"
    case Status(n) => "status:" + Show(n)
    case LogIt => "log"
    case Msg(n) => "msg:" + MESSAGE + Show(n) + "'"
    case Chain => "chain"
    case Remove(n, parameter) => "ctl:" + RemovalText(n, parameter)
  }

  function RemovalText(n: nat, parameter: string): string {
    if parameter == "" then "ruleRemoveById=" + Show(n) else "ruleRemoveTargetById=" + Show(n) + ";ARGS:" + parameter
  }

  /** The parts before and behind the first c, if there is one. */
  function Cut(s: string, c: char): (string, Option<string>) {
    if s == "" then ("", None)
    else if s[0] == c then ("", Some(s[1..]))
    else
      var rest := Cut(s[1..], c);
      ([s[0]] + rest.0, rest.1)
  }

  lemma {:induction false} CutAt(before: string, c: char, behind: string)
    requires c !in before
    ensures Cut(before + [c] + behind, c) == (before, Some(behind))
    ensures Cut(before, c) == (before, None)
  {
    var s := before + [c] + behind;
    if before == "" {
      assert s[0] == c && s[1..] == behind;
    } else {
      CutAt(before[1..], c, behind);
      assert s[0] == before[0] && s[1..] == before[1..] + [c] + behind;
      assert [before[0]] + before[1..] == before;
    }
  }

  function ReadAct(text: string): Option<Act> {
    var cut := Cut(text, ':');
    match cut.1
    case None => ReadFlag(cut.0)
    case Some(value) => ReadValue(cut.0, value)
  }

  function ReadFlag(name: string): Option<Act> {
    if name == "pass" then Some(Pass)
    else if name == "nolog" then Some(NoLog)
    else if name == "deny" then Some(DenyIt)
    else if name == "log" then Some(LogIt)
    else if name == "chain" then Some(Chain)
    else None
  }

  function ReadValue(name: string, value: string): Option<Act> {
    var n := ReadNat(value);
    if name == "id" && n.Some? then Some(Id(n.value))
    else if name == "phase" && n.Some? then Some(Phase(n.value))
    else if name == "status" && n.Some? then Some(Status(n.value))
    else if name == "t" && value == "none" then Some(NoTransformation)
    else if name == "msg" then ReadMessage(value)
    else if name == "ctl" then ReadRemoval(value)
    else None
  }

  function ReadMessage(value: string): Option<Act> {
    if |value| > |MESSAGE| && MESSAGE <= value && value[|value| - 1] == '\'' then
      var n := ReadNat(value[|MESSAGE|..|value| - 1]);
      if n.None? then None else Some(Msg(n.value))
    else None
  }

  function ReadRemoval(value: string): Option<Act> {
    var cut := Cut(value, '=');
    if cut.1.None? then None
    else if cut.0 == "ruleRemoveById" then
      var n := ReadNat(cut.1.value);
      if n.None? then None else Some(Remove(n.value, ""))
    else if cut.0 == "ruleRemoveTargetById" then
      var target := Cut(cut.1.value, ';');
      var n := ReadNat(target.0);
      if n.None? || target.1.None? || !("ARGS:" <= target.1.value) then None
      else Some(Remove(n.value, target.1.value[5..]))
    else None
  }

  predicate IsNameChar(c: char) {
    'a' <= c <= 'z' || 'A' <= c <= 'Z' || '0' <= c <= '9' || c in {'_', '.', '-'}
  }

  /** The parameter of a removal is a name. */
  predicate PlainAct(a: Act) {
    a.Remove? ==> forall i :: 0 <= i < |a.parameter| ==> IsNameChar(a.parameter[i])
  }

  lemma ReadActText(a: Act)
    ensures ReadAct(ActText(a)) == Some(a)
  {
    match a {
      case Id(n) => ReadNumbered(a, "id", n);
      case Phase(n) => ReadNumbered(a, "phase", n);
      case Status(n) => ReadNumbered(a, "status", n);
      case NoTransformation => ReadNone();
      case Msg(n) => ReadMsg(n);
      case Remove(n, parameter) => ReadRemove(n, parameter);
      case _ => ReadPlainFlag(a);
    }
    hide *;
  }

  lemma ReadNumbered(a: Act, name: string, n: nat)
    requires (a == Id(n) && name == "id") || (a == Phase(n) && name == "phase") || (a == Status(n) && name == "status")
    ensures ReadAct(ActText(a)) == Some(a)
  {
    hide ReadAct, ReadNat, Show;
    assert ActText(a) == name + ":" + Show(n);
    ReadKeyed(name, Show(n));
    ReadShow(n);
  }

  lemma ReadNone()
    ensures ReadAct(ActText(NoTransformation)) == Some(NoTransformation)
  {
    hide ReadAct, ReadNat;
    ReadKeyed("t", "none");
    assert ActText(NoTransformation) == "t" + ":" + "none";
  }

  lemma ReadPlainFlag(a: Act)
    requires a.Pass? || a.NoLog? || a.DenyIt? || a.LogIt? || a.Chain?
    ensures ReadAct(ActText(a)) == Some(a)
  {
    hide ReadAct;
    ReadUnkeyed(ActText(a));
  }

  lemma ReadMsg(n: nat)
    ensures ReadAct(ActText(Msg(n))) == Some(Msg(n))
  {
    hide ReadAct, ReadNat, Show, ReadMessage;
    ReadKeyed("msg", MESSAGE + Show(n) + "'");
    ReadMessageText(n);
    assert ActText(Msg(n)) == "msg" + ":" + (MESSAGE + Show(n) + "'");
  }

  lemma ReadRemove(n: nat, parameter: string)
    ensures ReadAct(ActText(Remove(n, parameter))) == Some(Remove(n, parameter))
  {
    hide ReadAct, ReadNat, RemovalText, ReadRemoval;
    ReadKeyed("ctl", RemovalText(n, parameter));
    ReadRemovalText(n, parameter);
    assert ActText(Remove(n, parameter)) == "ctl" + ":" + RemovalText(n, parameter);
  }

  lemma ReadKeyed(name: string, value: string)
    requires ':' !in name
    ensures ReadAct(name + ":" + value) == ReadValue(name, value)
  {
    hide Cut, ReadValue;
    CutAt(name, ':', value);
  }

  lemma ReadUnkeyed(name: string)
    requires ':' !in name
    ensures ReadAct(name) == ReadFlag(name)
  {
    hide Cut, ReadFlag;
    CutAt(name, ':', "");
  }

  lemma ReadMessageText(n: nat)
    ensures ReadMessage(MESSAGE + Show(n) + "'") == Some(Msg(n))
  {
    ReadShow(n);
    var value := MESSAGE + Show(n) + "'";
    assert value[|MESSAGE|..|value| - 1] == Show(n);
    assert value[..|MESSAGE|] == MESSAGE;
  }

  lemma ReadRemovalText(n: nat, parameter: string)
    ensures ReadRemoval(RemovalText(n, parameter)) == Some(Remove(n, parameter))
  {
    hide Cut, ReadNat, Show;
    ReadShow(n);
    if parameter == "" {
      CutAt("ruleRemoveById", '=', Show(n));
      assert RemovalText(n, parameter) == "ruleRemoveById" + ['='] + Show(n);
    } else {
      var target := Show(n) + [';'] + ("ARGS:" + parameter);
      CutAt("ruleRemoveTargetById", '=', target);
      assert RemovalText(n, parameter) == "ruleRemoveTargetById" + ['='] + target;
      CutAt(Show(n), ';', "ARGS:" + parameter);
      assert ("ARGS:" + parameter)[5..] == parameter;
    }
  }

  // The list of actions, and the line.

  function ActsText(acts: seq<Act>): string {
    if acts == [] then "" else if |acts| == 1 then ActText(acts[0]) else ActText(acts[0]) + "," + ActsText(acts[1..])
  }

  function ReadActs(text: string): Option<seq<Act>>
    decreases |text|
  {
    var cut := Cut(text, ',');
    var first := ReadAct(cut.0);
    if first.None? then None
    else if cut.1.None? || |cut.1.value| >= |text| then Some([first.value])
    else
      var rest := ReadActs(cut.1.value);
      if rest.None? then None else Some([first.value] + rest.value)
  }

  /** Neither a comma nor anything that ends or escapes in a quoted argument. */
  predicate PlainChar(c: char) {
    c !in {',', '"', '\\'}
  }

  predicate PlainText(s: string) {
    forall i :: 0 <= i < |s| ==> PlainChar(s[i])
  }

  lemma PlainJoined(a: string, b: string)
    requires PlainText(a) && PlainText(b)
    ensures PlainText(a + b)
  {
  }

  lemma NumberPlain(n: nat)
    ensures PlainText(Show(n))
  {
    var s := Show(n);
    assert forall i :: 0 <= i < |s| ==> '0' <= s[i] <= '9';
  }

  lemma ActPlain(a: Act)
    requires PlainAct(a)
    ensures PlainText(ActText(a))
  {
    hide Show, PlainChar;
    assert PlainText("id:") && PlainText("phase:") && PlainText("status:") && PlainText("msg:") by { Literals(); }
    match a
    case Id(n) => NumberPlain(n);
    case Phase(n) => NumberPlain(n);
    case Status(n) => NumberPlain(n);
    case Msg(n) =>
      Literals();
      NumberPlain(n);
    case Remove(n, parameter) => RemovalPlain(n, parameter);
    case _ => Literals();
  }

  lemma Literals()
    ensures PlainText("id:") && PlainText("phase:") && PlainText("status:") && PlainText("msg:") && PlainText(MESSAGE)
    ensures PlainText("'") && PlainText("ctl:") && PlainText("ruleRemoveById=") && PlainText("ruleRemoveTargetById=")
    ensures PlainText(";ARGS:") && PlainText("t:none") && PlainText("pass") && PlainText("nolog") && PlainText("deny")
    ensures PlainText("log") && PlainText("chain")
  {
  }

  lemma RemovalPlain(n: nat, parameter: string)
    requires PlainAct(Remove(n, parameter))
    ensures PlainText(ActText(Remove(n, parameter)))
  {
    assert PlainText(parameter);
    hide Show, PlainChar;
    Literals();
    NumberPlain(n);
  }

  lemma {:induction false} ReadActsText(acts: seq<Act>)
    requires acts != [] && forall i :: 0 <= i < |acts| ==> PlainAct(acts[i])
    ensures ReadActs(ActsText(acts)) == Some(acts)
    ensures forall i :: 0 <= i < |ActsText(acts)| ==> ActsText(acts)[i] !in {'"', '\\'}
  {
    hide ActText, ReadAct, Cut;
    ActPlain(acts[0]);
    assert ',' !in ActText(acts[0]);
    ReadActText(acts[0]);
    if |acts| == 1 {
      CutAt(ActText(acts[0]), ',', "");
      assert [acts[0]] == acts;
    } else {
      ReadActsText(acts[1..]);
      CutAt(ActText(acts[0]), ',', ActsText(acts[1..]));
      assert ActsText(acts) == ActText(acts[0]) + [','] + ActsText(acts[1..]);
      assert [acts[0]] + acts[1..] == acts;
    }
  }

  function Line(d: Directive): string {
    match d
    case SecRule(variable, operator, acts) =>
      "SecRule " + variable + " \"" + operator + "\" \"" + ActsText(acts) + "\""
    case SecAction(acts) => "SecAction \"" + ActsText(acts) + "\""
  }

  /** The actions in quotes that end a line. */
  function ReadQuotedActs(text: string): Option<seq<Act>> {
    if text == "" || text[0] != '"' then None
    else
      var q := Quoted(text[1..]);
      if q.None? || q.value.1 != "" then None else ReadActs(q.value.0)
  }

  function ReadLine(text: string): Option<Directive> {
    var command := Cut(text, ' ');
    if command.1.None? then None
    else if command.0 == "SecAction" then
      var acts := ReadQuotedActs(command.1.value);
      if acts.None? then None else Some(SecAction(acts.value))
    else if command.0 == "SecRule" then
      var variable := Cut(command.1.value, ' ');
      if variable.1.None? || variable.1.value == "" || variable.1.value[0] != '"' then None
      else
        var operator := Quoted(variable.1.value[1..]);
        if operator.None? || operator.value.1 == "" || operator.value.1[0] != ' ' then None
        else
          var acts := ReadQuotedActs(operator.value.1[1..]);
          if acts.None? then None else Some(SecRule(variable.0, operator.value.0, acts.value))
    else None
  }

  /** Actions that are plain, and a variable of one word. */
  predicate Plain(d: Directive) {
    && d.acts != [] && (forall i :: 0 <= i < |d.acts| ==> PlainAct(d.acts[i]))
    && (d.SecRule? ==> ' ' !in d.variable)
  }

  lemma QuotedActsText(acts: seq<Act>)
    requires acts != [] && forall i :: 0 <= i < |acts| ==> PlainAct(acts[i])
    ensures ReadQuotedActs("\"" + ActsText(acts) + "\"") == Some(acts)
  {
    hide *;
    ReadActsText(acts);
    PlainQuotable(ActsText(acts));
    QuotedReads(ActsText(acts));
  }

  lemma QuotedReads(text: string)
    requires Quotable(text)
    ensures ReadQuotedActs("\"" + text + "\"") == ReadActs(text)
  {
    hide ReadActs, Quoted, Quotable;
    QuotableRead(text, "");
    var quoted := "\"" + text + "\"";
    assert quoted[0] == '"' && quoted[1..] == text + "\"" + "";
  }

  lemma PlainQuotable(s: string)
    requires forall i :: 0 <= i < |s| ==> s[i] !in {'"', '\\'}
    ensures Quotable(s)
  {
  }

  /** A directive is read back exactly if its operator is quotable. */
  lemma LineIff(d: Directive)
    requires Plain(d)
    ensures ReadLine(Line(d)) == Some(d) <==> (d.SecRule? ==> Quotable(d.operator))
  {
    hide ActsText, ReadQuotedActs, Quoted, Quotable, Cut;
    QuotedActsText(d.acts);
    var acts := "\"" + ActsText(d.acts) + "\"";
    match d
    case SecAction(_) =>
      CutAt("SecAction", ' ', acts);
      assert Line(d) == "SecAction" + [' '] + acts;
    case SecRule(variable, operator, _) =>
      var behind := " " + acts;
      var quoted := "\"" + (operator + "\"" + behind);
      CutAt("SecRule", ' ', variable + [' '] + quoted);
      assert Line(d) == "SecRule" + [' '] + (variable + [' '] + quoted);
      CutAt(variable, ' ', quoted);
      assert quoted[1..] == operator + "\"" + behind;
      QuotableIff(operator, behind);
      assert behind[1..] == acts;
  }

  function Lines(ds: seq<Directive>): (texts: seq<string>)
    ensures |texts| == |ds|
  {
    seq(|ds|, i requires 0 <= i < |ds| => Line(ds[i]))
  }

  /** What the engine makes of some lines, if it can read them. */
  function ReadLines(texts: seq<string>): Option<seq<Directive>> {
    if texts == [] then Some([])
    else
      var first, rest := ReadLine(texts[0]), ReadLines(texts[1..]);
      if first.None? || rest.None? then None else Some([first.value] + rest.value)
  }

  predicate AllPlain(ds: seq<Directive>) {
    forall i :: 0 <= i < |ds| ==> Plain(ds[i])
  }

  predicate AllQuotable(ds: seq<Directive>) {
    forall i :: 0 <= i < |ds| ==> ds[i].SecRule? ==> Quotable(ds[i].operator)
  }

  /** Plain directives are read back exactly if all their operators are quotable. */
  lemma {:induction false} LinesIff(ds: seq<Directive>)
    requires AllPlain(ds)
    ensures ReadLines(Lines(ds)) == Some(ds) <==> AllQuotable(ds)
  {
    hide Line, ReadLine, Plain, Quotable;
    if ds != [] {
      LineIff(ds[0]);
      LinesIff(ds[1..]);
      assert Lines(ds)[1..] == Lines(ds[1..]);
      assert [ds[0]] + ds[1..] == ds;
    }
  }
}
