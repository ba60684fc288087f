/** The compiler from form specifications to WAF rules (app/modules/config/waf_wizard.py).

    Values and parameters are stripped of surrounding space already, and fields that do not apply to
    a kind or field have their default. */
module WafWizard {
  import opened Outcomes
  import opened Bytes
  import opened WafPattern
  import opened WafDirectives

  datatype Field = Ip | Uri | Method | Header | Arg

  /** `value` holds the UTF-8 bytes of the text. */
  datatype Condition = Condition(field: Field, key: string, op: Operator, value: Bytes)

  datatype Kind = Rule | Exclusion

  datatype Disposition = Deny | Log

  datatype Match = All | Any

  /** A saved specification: of the first version, with one condition, or of the second. */
  datatype Spec =
    | V1(id: nat, kind: Kind, condition: Condition, action: Disposition, excludeId: nat, excludeParameter: string)
    | V2(id: nat, kind: Kind, action: Disposition, match_: Match, conditions: seq<Condition>, excludeId: nat,
         excludeParameter: string)

  const MAX_CONDITIONS: nat := 10

  predicate IsName(s: string) {
    0 < |s| <= 128 && forall i :: 0 <= i < |s| ==> IsNameChar(s[i])
  }

  predicate IsText(value: Bytes) {
    value != [] && forall i :: 0 <= i < |value| ==> value[i] >= 32 && value[i] != 127
  }

  /** _condition: a network list has the operator Equals; only headers and arguments have a key. */
  predicate ValidCondition(c: Condition) {
    && (c.field.Ip? ==> c.op.Equals?)
    && (if c.field.Header? || c.field.Arg? then IsName(c.key) else c.key == "")
    && IsText(c.value) && (c.field.Uri? ==> c.value[0] as char == '/')
  }

  predicate ValidTarget(excludeId: nat, excludeParameter: string) {
    1 <= excludeId <= 2147483647 && (excludeParameter == "" || IsName(excludeParameter))
  }

  /** validate_spec. */
  predicate Valid(s: Spec) {
    && 1 <= s.id <= 99999
    && match s
       case V1(id, kind, c, action, excludeId, excludeParameter) =>
         if kind.Exclusion? then
           && c.field.Uri? && c.key == "" && (c.value != [] ==> IsText(c.value) && c.value[0] as char == '/')
           && action.Log? && ValidTarget(excludeId, excludeParameter) && excludeId != id
         else ValidCondition(c)
       case V2(id, kind, action, _, cs, excludeId, excludeParameter) =>
         && |cs| <= MAX_CONDITIONS && (forall i :: 0 <= i < |cs| ==> ValidCondition(cs[i]))
         && id + |RuleIds(s)| - 1 <= 99999
         && if kind.Rule? then cs != []
            else && (forall i :: 0 <= i < |cs| ==> !cs[i].field.Arg?) && action.Log?
                 && ValidTarget(excludeId, excludeParameter) && excludeId !in RuleIds(s)
  }

  // ---------------------------------------------------------------------------------------
  // What a specification means
  // ---------------------------------------------------------------------------------------

  /** A request: its address, path and method, its headers and arguments by name, and which addresses
      are in a list of networks. `early` is what is known of the arguments in phase 1, when the body has
      not been read; everything else is known from phase 1 on. */
  datatype Request = Request(address: Bytes, path: Bytes, verb: Bytes, headers: string -> seq<Bytes>,
                             early: string -> seq<Bytes>, arguments: string -> seq<Bytes>,
                             inNetworks: (string, Bytes) -> bool)

  /** What a condition is about. */
  function Subjects(c: Condition, r: Request): seq<Bytes> {
    match c.field
    case Ip => [r.address]
    case Uri => [r.path]
    case Method => [r.verb]
    case Header => r.headers(c.key)
    case Arg => r.arguments(c.key)
  }

  /** The bytes as characters of the file of rules, which is read byte by byte. */
  function FileText(value: Bytes): string {
    seq(|value|, i requires 0 <= i < |value| => value[i] as char)
  }

  /** Some subject is in the networks, or compares as the condition says. */
  predicate Holds(c: Condition, r: Request) {
    var subjects := Subjects(c, r);
    exists i :: 0 <= i < |subjects| &&
      if c.field.Ip? then r.inNetworks(FileText(c.value), subjects[i]) else Satisfies(subjects[i], c.op, c.value)
  }

  predicate AllHold(cs: seq<Condition>, r: Request) {
    forall i :: 0 <= i < |cs| ==> Holds(cs[i], r)
  }

  /** A list of all or of any conditions; an empty one always applies. */
  predicate Applies(m: Match, cs: seq<Condition>, r: Request) {
    if m.All? then AllHold(cs, r) else cs == [] || exists i :: 0 <= i < |cs| && Holds(cs[i], r)
  }

  predicate SpecApplies(s: Spec, r: Request) {
    match s
    case V1(_, kind, c, _, _, _) => Holds(c, r) || (kind.Exclusion? && c.value == [])
    case V2(_, _, _, m, cs, _, _) => Applies(m, cs, r)
  }

  datatype Effect = Denied(status: nat) | Logged(rule: nat) | Removed(rule: nat, parameter: string)

  /** What a specification does to the requests it applies to. */
  function Intended(s: Spec): set<Effect> {
    if s.kind.Exclusion? then {Removed(s.excludeId, s.excludeParameter)}
    else {Logged(s.id)} + if s.action.Deny? then {Denied(403)} else {}
  }

  // ---------------------------------------------------------------------------------------
  // Directives and what the engine does with them
  // ---------------------------------------------------------------------------------------

  /** The `@rx` and `@ipMatch` operators. */
  predicate OperatorMatches(operator: string, subject: Bytes, r: Request) {
    if "@ipMatch " <= operator then r.inNetworks(operator[9..], subject)
    else "@rx " <= operator && Parse(operator[4..]).Some? && Finds(Parse(operator[4..]).value, subject)
  }

  /** The values of a variable of the engine, in a phase. */
  function Values(r: Request, phase: nat, variable: string): seq<Bytes> {
    if variable == "REMOTE_ADDR" then [r.address]
    else if variable == "REQUEST_FILENAME" then [r.path]
    else if variable == "REQUEST_METHOD" then [r.verb]
    else if "REQUEST_HEADERS:" <= variable then r.headers(variable[16..])
    else if "ARGS:" <= variable then (if phase == 1 then r.early(variable[5..]) else r.arguments(variable[5..]))
    else []
  }

  predicate Matches(d: Directive, phase: nat, r: Request) {
    d.SecAction? ||
    var subjects := Values(r, phase, d.variable);
    exists i :: 0 <= i < |subjects| && OperatorMatches(d.operator, subjects[i], r)
  }

  function PhaseOf(acts: seq<Act>): nat {
    if acts == [] then 2 else if acts[0].Phase? then acts[0].phase else PhaseOf(acts[1..])
  }

  /** How many directives the chain at the head has. */
  function ChainLength(ds: seq<Directive>): (n: nat)
    requires ds != []
    ensures 0 < n <= |ds|
  {
    if Chain in ds[0].acts && |ds| > 1 then 1 + ChainLength(ds[1..]) else 1
  }

  /** How many links of a chain match before the first that does not. */
  function Matching(chain: seq<Directive>, phase: nat, r: Request): (n: nat)
    ensures n <= |chain|
  {
    if chain == [] || !Matches(chain[0], phase, r) then 0 else 1 + Matching(chain[1..], phase, r)
  }

  function Removals(acts: seq<Act>): set<Effect> {
    set a | a in acts && a.Remove? :: Removed(a.rule, a.parameter)
  }

  function Dispositions(acts: seq<Act>): set<Effect> {
    (if DenyIt in acts then set a | a in acts && a.Status? :: Denied(a.code) else {})
    + if LogIt in acts then set a | a in acts && a.Msg? :: Logged(a.rule) else {}
  }

  /** A link acts on the configuration as soon as it is reached and matches; the starter denies and
      logs if the whole chain matches. */
  function ChainEffects(chain: seq<Directive>, r: Request): set<Effect>
    requires chain != []
  {
    var n := Matching(chain, PhaseOf(chain[0].acts), r);
    (set k, e | 0 <= k < n && e in Removals(chain[k].acts) :: e) +
    if n == |chain| then Dispositions(chain[0].acts) else {}
  }

  function Effects(ds: seq<Directive>, r: Request): set<Effect>
    decreases |ds|
  {
    if ds == [] then {}
    else ChainEffects(ds[..ChainLength(ds)], r) + Effects(ds[ChainLength(ds)..], r)
  }

  // ---------------------------------------------------------------------------------------
  // The compiler
  // ---------------------------------------------------------------------------------------

  /** form_spec. */
  function FormSpec(s: Spec): (v2: Spec)
    ensures v2.V2?
  {
    match s
    case V1(id, kind, c, action, excludeId, excludeParameter) =>
      V2(id, kind, action, All, if kind.Rule? || c.value != [] then [c] else [], excludeId, excludeParameter)
    case V2(_, _, _, _, _, _, _) => s
  }

  /** rule_ids. */
  function RuleIds(s: Spec): (ids: seq<nat>) {
    var count := if s.V2? && s.match_.Any? && |s.conditions| > 1 then |s.conditions| else 1;
    seq(count, i requires 0 <= i => s.id + i)
  }

  /** _expression. */
  function Variable(f: Field, key: string): string {
    (match f
     case Ip => "REMOTE_ADDR"
     case Uri => "REQUEST_FILENAME"
     case Method => "REQUEST_METHOD"
     case Header => "REQUEST_HEADERS"
     case Arg => "ARGS")
    + if key != "" then ":" + key else ""
  }

  function OperatorText(c: Condition): string {
    if c.field.Ip? then "@ipMatch " + FileText(c.value) else "@rx " + Pattern(c.op, c.value)
  }

  /** _actions. */
  function Starter(s: Spec, id: nat, phase: nat): seq<Act> {
    [Id(id), Phase(phase), NoTransformation] +
    if s.kind.Exclusion? then [Pass, NoLog]
    else (if s.action.Deny? then [DenyIt, Status(403)] else [Pass]) + [LogIt, Msg(s.id)]
  }

  function Control(s: Spec): seq<Act> {
    if s.kind.Exclusion? then [Remove(s.excludeId, s.excludeParameter)] else []
  }

  function GroupPhase(group: seq<Condition>): nat {
    if exists i :: 0 <= i < |group| && group[i].field.Arg? then 2 else 1
  }

  function Link(s: Spec, id: nat, group: seq<Condition>, k: nat): Directive
    requires k < |group|
  {
    SecRule(Variable(group[k].field, group[k].key), OperatorText(group[k]),
            (if k == 0 then Starter(s, id, GroupPhase(group)) else [NoTransformation])
            + if k < |group| - 1 then [Chain] else Control(s))
  }

  /** The directives of one group of conditions. */
  function Compiled(s: Spec, id: nat, group: seq<Condition>): seq<Directive> {
    if group == [] then [SecAction(Starter(s, id, 1) + Control(s))]
    else seq(|group|, k requires 0 <= k < |group| => Link(s, id, group, k))
  }

  function Groups(s: Spec): seq<seq<Condition>>
    requires s.V2?
  {
    if s.match_.All? || s.conditions == [] then [s.conditions]
    else seq(|s.conditions|, i requires 0 <= i < |s.conditions| => [s.conditions[i]])
  }

  /** The directives of the groups from k on. */
  function CompiledFrom(s: Spec, groups: seq<seq<Condition>>, k: nat): seq<Directive>
    requires k <= |groups|
    decreases |groups| - k
  {
    if k == |groups| then [] else Compiled(s, s.id + k, groups[k]) + CompiledFrom(s, groups, k + 1)
  }

  /** The directives of a specification. */
  function Directives(s: Spec): seq<Directive> {
    CompiledFrom(FormSpec(s), Groups(FormSpec(s)), 0)
  }

  /** A network list can hold what its parser keeps, such as the scope of an IPv6 address: it has to
      be quotable. Every other value is written so that it is. */
  predicate SpecQuotable(s: Spec) {
    var cs := FormSpec(s).conditions;
    forall i :: 0 <= i < |cs| && cs[i].field.Ip? ==> Quotable(FileText(cs[i].value))
  }

  /** render_rule, up to the comments around the directives; an invalid specification is refused. The
      engine reads the directives back from the lines if and only if the network lists are quotable;
      then the lines do what the specification means. */
  method Render(s: Spec) returns (r: Option<seq<string>>)
    ensures r.Some? <==> Valid(s)
    ensures r.Some? ==> r.value == Lines(Directives(s))
    ensures r.Some? ==> (ReadLines(r.value) == Some(Directives(s)) <==> SpecQuotable(s))
    ensures r.Some? && SpecQuotable(s) ==>
              && ReadLines(r.value).Some?
              && forall q: Request ::
                   Effects(ReadLines(r.value).value, q) == if SpecApplies(s, q) then Intended(s) else {}
  {
    hide Effects, SpecApplies, Intended, Compiled, SpecQuotable, ReadLines, Lines, Line;
    if !Valid(s) { return None; }
    var current := FormSpec(s);
    var groups, ids := Groups(current), RuleIds(current);
    GroupsNumbered(current);
    var lines: seq<string> := [];
    ghost var directives: seq<Directive> := [];
    NoLines();
    for n := 0 to |groups|
      invariant CompiledFrom(current, groups, 0) == directives + CompiledFrom(current, groups, n)
      invariant lines == Lines(directives)
    {
      var group := RenderGroup(current, ids[n], groups[n]);
      ghost var compiled := Compiled(current, ids[n], groups[n]);
      assert CompiledFrom(current, groups, n) == compiled + CompiledFrom(current, groups, n + 1);
      LinesJoined(directives, compiled);
      lines, directives := lines + group, directives + compiled;
    }
    assert directives == Directives(s);
    TextIff(s);
    forall q: Request ensures Effects(directives, q) == if SpecApplies(s, q) then Intended(s) else {} {
      CompilationMeans(s, q);
    }
    r := Some(lines);
  }

  /** The lines of one group of conditions. */
  method RenderGroup(s: Spec, id: nat, group: seq<Condition>) returns (lines: seq<string>)
    ensures lines == Lines(Compiled(s, id, group))
  {
    hide Line;
    var acts := Starter(s, id, GroupPhase(group));
    lines := [];
    if group == [] { lines := [Line(SecAction(acts + Control(s)))]; }
    for k := 0 to |group|
      invariant group != [] ==> lines == Lines(Compiled(s, id, group))[..k]
      invariant group == [] ==> lines == Lines(Compiled(s, id, group))
    {
      var part := if k == 0 then acts else [NoTransformation];
      part := part + if k < |group| - 1 then [Chain] else Control(s);
      lines := lines + [Line(SecRule(Variable(group[k].field, group[k].key), OperatorText(group[k]), part))];
      assert lines[k] == Line(Link(s, id, group, k));
    }
  }

  lemma LinesJoined(a: seq<Directive>, b: seq<Directive>)
    ensures Lines(a + b) == Lines(a) + Lines(b)
  {
  }

  lemma NoLines()
    ensures Lines([]) == []
  {
  }

  lemma GroupsNumbered(s: Spec)
    requires s.V2?
    ensures |RuleIds(s)| == |Groups(s)| && forall n :: 0 <= n < |RuleIds(s)| ==> RuleIds(s)[n] == s.id + n
  {
  }

  // ---------------------------------------------------------------------------------------
  // Compilation preserves the meaning
  // ---------------------------------------------------------------------------------------

  lemma OperatorMeans(c: Condition, subject: Bytes, r: Request)
    requires ValidCondition(c) || c.field.Uri?
    ensures OperatorMatches(OperatorText(c), subject, r) <==>
              if c.field.Ip? then r.inNetworks(FileText(c.value), subject) else Satisfies(subject, c.op, c.value)
  {
    var text := OperatorText(c);
    if c.field.Ip? {
      assert text[9..] == FileText(c.value);
    } else {
      assert text[1] == 'r' && text[4..] == Pattern(c.op, c.value);
      PatternMeans(c.op, c.value, subject);
    }
  }

  /** The variable of a condition stands for its subjects, in phase 2 and, but for arguments, in phase 1. */
  lemma VariableMeans(c: Condition, phase: nat, r: Request)
    requires ValidCondition(c) && (c.field.Arg? ==> phase != 1)
    ensures Values(r, phase, Variable(c.field, c.key)) == Subjects(c, r)
  {
    var v := Variable(c.field, c.key);
    if c.field.Header? {
      assert v == "REQUEST_HEADERS:" + c.key && v[16..] == c.key && v[8] == 'H';
    } else if c.field.Arg? {
      assert v == "ARGS:" + c.key && v[5..] == c.key && v[0] == 'A';
    } else {
      assert v + "" == v;
    }
  }

  /** A compiled link matches, in the phase of its group, exactly if its condition holds. */
  lemma LinkMeans(s: Spec, id: nat, group: seq<Condition>, k: nat, r: Request)
    requires k < |group| && ValidCondition(group[k])
    ensures Matches(Link(s, id, group, k), GroupPhase(group), r) <==> Holds(group[k], r)
  {
    hide Variable, Values;
    var c := group[k];
    VariableMeans(c, GroupPhase(group), r);
    var subjects := Subjects(c, r);
    forall i | 0 <= i < |subjects|
      ensures OperatorMatches(OperatorText(c), subjects[i], r) <==>
                if c.field.Ip? then r.inNetworks(FileText(c.value), subjects[i])
                else Satisfies(subjects[i], c.op, c.value)
    {
      OperatorMeans(c, subjects[i], r);
    }
  }

  // ---------------------------------------------------------------------------------------
  // The text of the directives
  // ---------------------------------------------------------------------------------------

  /** Neither the end of a quoted argument nor the start of a macro. */
  predicate Harmless(c: char) {
    c !in {'"', '%'}
  }

  /** What a valid condition puts between quotes is harmless, exactly if its networks are; the other
      values always are, whatever they hold. */
  lemma ConditionInert(c: Condition)
    requires ValidCondition(c)
    ensures forall i :: 0 <= i < |Variable(c.field, c.key)| ==>
              IsNameChar(Variable(c.field, c.key)[i]) || Variable(c.field, c.key)[i] == ':'
    ensures (forall i :: 0 <= i < |OperatorText(c)| ==> Harmless(OperatorText(c)[i])) <==>
              (c.field.Ip? ==> forall i :: 0 <= i < |FileText(c.value)| ==> Harmless(FileText(c.value)[i]))
  {
    if c.field.Ip? {
      var text, prefix := OperatorText(c), "@ipMatch ";
      assert forall i :: 0 <= i < |FileText(c.value)| ==> text[|prefix| + i] == FileText(c.value)[i];
    } else {
      PatternHarmless(c);
    }
  }

  lemma PatternHarmless(c: Condition)
    requires !c.field.Ip?
    ensures forall i :: 0 <= i < |OperatorText(c)| ==> Harmless(OperatorText(c)[i])
  {
    EncodeInert(c.value);
    hide Encode;
    var body := Encode(c.value);
    assert OperatorText(c) == "@rx " + ((if c.op.Contains? then "" else "^") + body + if c.op.Equals? then "$" else "");
  }

  /** An operator is quotable, except for a network list that is not. */
  lemma OperatorQuotable(c: Condition)
    requires c.value != [] || !c.field.Ip?
    ensures Quotable(OperatorText(c)) <==> (c.field.Ip? ==> Quotable(FileText(c.value)))
  {
    if c.field.Ip? {
      QuotableBehind("@ipMatch ", FileText(c.value));
    } else {
      PatternQuotable(c);
    }
  }

  lemma PatternQuotable(c: Condition)
    requires !c.field.Ip?
    ensures Quotable(OperatorText(c))
  {
    EncodeInert(c.value);
    EncodeEscapes(c.value);
    hide Encode;
    var body := Encode(c.value);
    var head := "@rx " + if c.op.Contains? then "" else "^";
    var text := head + body + if c.op.Equals? then "$" else "";
    assert OperatorText(c) == text;
    forall i | 0 <= i < |text| && text[i] == '\\' ensures i + 1 < |text| && text[i + 1] == 'x' {
      assert |head| <= i < |head| + |body| && text[i] == body[i - |head|];
      assert text[i + 1] == body[i - |head| + 1];
    }
    forall i | 0 <= i < |text| ensures text[i] != '"' {
      if |head| <= i < |head| + |body| { assert text[i] == body[i - |head|]; }
    }
  }

  predicate TestsQuotable(tests: seq<(string, string)>) {
    forall i :: 0 <= i < |tests| ==> Quotable(tests[i].1)
  }

  lemma {:induction false} QuotableTests(ds: seq<Directive>)
    ensures AllQuotable(ds) <==> TestsQuotable(Tests(ds))
  {
    hide Quotable;
    if ds != [] {
      QuotableTests(ds[1..]);
      var rest, tests := Tests(ds[1..]), Tests(ds);
      assert AllQuotable(ds) <==> (ds[0].SecRule? ==> Quotable(ds[0].operator)) && AllQuotable(ds[1..]) by {
        assert forall i :: 0 <= i < |ds| - 1 ==> ds[1..][i] == ds[i + 1];
      }
      if ds[0].SecRule? {
        assert tests[0].1 == ds[0].operator && tests[1..] == rest;
        assert forall i :: 0 <= i < |rest| ==> tests[i + 1] == rest[i];
      } else {
        assert tests == rest;
      }
    }
  }

  lemma ConditionsQuotable(s: Spec)
    requires Valid(s)
    ensures TestsQuotable(TestsOf(FormSpec(s).conditions)) <==> SpecQuotable(s)
  {
    hide Quotable, OperatorText;
    var cs := FormSpec(s).conditions;
    TestsAre(cs);
    forall i | 0 <= i < |cs|
      ensures Quotable(TestsOf(cs)[i].1) <==> (cs[i].field.Ip? ==> Quotable(FileText(cs[i].value)))
    {
      OperatorQuotable(cs[i]);
    }
  }

  lemma StarterPlain(s: Spec, id: nat, phase: nat)
    ensures forall a :: a in Starter(s, id, phase) ==> PlainAct(a)
  {
    assert forall a :: a in Starter(s, id, phase) ==> !a.Remove?;
  }

  lemma LinkPlain(s: Spec, id: nat, group: seq<Condition>, k: nat)
    requires k < |group| && (s.kind.Exclusion? ==> s.excludeParameter == "" || IsName(s.excludeParameter))
    requires group[k].key == "" || IsName(group[k].key)
    ensures Plain(Link(s, id, group, k))
  {
    StarterPlain(s, id, GroupPhase(group));
    VariablePlain(group[k].field, group[k].key);
    hide Starter, GroupPhase, Variable, OperatorText;
    var acts := Link(s, id, group, k).acts;
    assert forall i :: 0 <= i < |acts| ==> acts[i] in acts;
  }

  lemma VariablePlain(f: Field, key: string)
    requires key == "" || IsName(key)
    ensures ' ' !in Variable(f, key)
  {
    assert forall i :: 0 <= i < |key| ==> key[i] != ' ';
  }

  predicate NamesPlain(s: Spec, group: seq<Condition>) {
    && (s.kind.Exclusion? ==> s.excludeParameter == "" || IsName(s.excludeParameter))
    && forall i :: 0 <= i < |group| ==> group[i].key == "" || IsName(group[i].key)
  }

  lemma GroupPlain(s: Spec, id: nat, group: seq<Condition>)
    requires NamesPlain(s, group)
    ensures AllPlain(Compiled(s, id, group))
  {
    hide IsName, Plain, Link;
    if group == [] {
      UnconditionalPlain(s, id);
    } else {
      forall k | 0 <= k < |group| ensures Plain(Compiled(s, id, group)[k]) {
        LinkPlain(s, id, group, k);
      }
    }
  }

  lemma UnconditionalPlain(s: Spec, id: nat)
    requires s.kind.Exclusion? ==> s.excludeParameter == "" || IsName(s.excludeParameter)
    ensures Plain(SecAction(Starter(s, id, 1) + Control(s)))
  {
    StarterPlain(s, id, 1);
    hide Starter;
  }

  lemma {:induction false} GroupsPlain(s: Spec, groups: seq<seq<Condition>>, k: nat)
    requires k <= |groups| && forall i :: 0 <= i < |groups| ==> NamesPlain(s, groups[i])
    ensures AllPlain(CompiledFrom(s, groups, k))
    decreases |groups| - k
  {
    hide NamesPlain, Plain, Compiled;
    if k < |groups| {
      GroupsPlain(s, groups, k + 1);
      GroupPlain(s, s.id + k, groups[k]);
    }
  }

  lemma NamesAre(s: Spec)
    requires Valid(s)
    ensures var groups := Groups(FormSpec(s)); forall i :: 0 <= i < |groups| ==> NamesPlain(FormSpec(s), groups[i])
  {
    hide IsName, IsText;
  }

  /** The engine reads the emitted directives back if and only if the network lists are quotable. */
  lemma TextIff(s: Spec)
    requires Valid(s)
    ensures ReadLines(Lines(Directives(s))) == Some(Directives(s)) <==> SpecQuotable(s)
  {
    hide SpecQuotable, Lines, ReadLines, Tests, TestsOf, CompiledFrom, TestsQuotable, AllQuotable, AllPlain;
    var v2 := FormSpec(s);
    NamesAre(s);
    GroupsPlain(v2, Groups(v2), 0);
    LinesIff(Directives(s));
    QuotableTests(Directives(s));
    EmittedOnce(s);
    ConditionsQuotable(s);
  }

  /** A valid rule on the address whose IPv6 scope is a quote, `::%"`: its line is not read back. */
  lemma ScopeBreaksLine(id: nat)
    requires 1 <= id <= 99999
    ensures var c := Condition(Ip, "", Equals, [58, 58, 37, 34, 47, 49, 50, 56]);
            var s := V2(id, Rule, Deny, All, [c], 0, "");
            && FileText(c.value) == "::%\"/128" && Valid(s) && !Quotable(OperatorText(c))
            && ReadLines(Lines(Directives(s))) != Some(Directives(s))
  {
    hide Directives, ReadLines, Lines;
    var c := Condition(Ip, "", Equals, [58, 58, 37, 34, 47, 49, 50, 56]);
    var s := V2(id, Rule, Deny, All, [c], 0, "");
    assert FileText(c.value) == "::%\"/128";
    assert FileText(c.value)[3] == '"';
    OperatorQuotable(c);
    assert FormSpec(s).conditions[0] == c;
    TextIff(s);
  }

  predicate Compilable(group: seq<Condition>) {
    forall i :: 0 <= i < |group| ==> ValidCondition(group[i])
  }

  lemma CompilableAt(group: seq<Condition>, j: nat)
    requires Compilable(group) && j < |group|
    ensures ValidCondition(group[j])
  {
  }

  predicate HoldFrom(group: seq<Condition>, j: nat, r: Request) {
    forall i :: j <= i < |group| ==> Holds(group[i], r)
  }

  lemma {:induction false} MatchingAll(s: Spec, id: nat, group: seq<Condition>, j: nat, r: Request)
    requires group != [] && j <= |group| && Compilable(group)
    ensures Matching(Compiled(s, id, group)[j..], GroupPhase(group), r) == |group| - j <==> HoldFrom(group, j, r)
    decreases |group| - j
  {
    hide Holds, Matches, GroupPhase, Link, Compilable;
    var chain := Compiled(s, id, group);
    if j < |group| {
      MatchingAll(s, id, group, j + 1, r);
      CompilableAt(group, j);
      LinkMeans(s, id, group, j, r);
      assert chain[j..][0] == Link(s, id, group, j) && chain[j..][1..] == chain[j + 1..];
      assert HoldFrom(group, j, r) <==> Holds(group[j], r) && HoldFrom(group, j + 1, r);
    }
  }

  lemma {:induction false} ChainEnds(s: Spec, id: nat, group: seq<Condition>, rest: seq<Directive>, j: nat)
    requires group != [] && j < |group|
    ensures ChainLength((Compiled(s, id, group) + rest)[j..]) == |group| - j
    decreases |group| - j
  {
    var ds := Compiled(s, id, group) + rest;
    assert ds[j..][0] == Link(s, id, group, j);
    if j < |group| - 1 {
      ChainEnds(s, id, group, rest, j + 1);
      assert ds[j..][1..] == ds[j + 1..];
      assert Chain in Link(s, id, group, j).acts by {
        var acts := Link(s, id, group, j).acts;
        assert acts[|acts| - 1] == Chain;
      }
    } else {
      LastLink(s, id, group);
    }
  }

  lemma LastLink(s: Spec, id: nat, group: seq<Condition>)
    requires group != []
    ensures Chain !in Link(s, id, group, |group| - 1).acts
  {
  }

  /** The removals and dispositions in the actions of the links. */
  lemma StarterActs(s: Spec, id: nat, phase: nat, more: seq<Act>)
    ensures PhaseOf(Starter(s, id, phase) + more) == phase
    ensures Removals(Starter(s, id, phase)) == {}
    ensures Dispositions(Starter(s, id, phase)) == if s.kind.Rule? then Intended(s) else {}
  {
    var acts := Starter(s, id, phase) + more;
    assert acts[0] == Id(id) && acts[1..][0] == Phase(phase);
    if s.kind.Exclusion? {
      ExclusionActs(s, id, phase);
    } else {
      RuleActs(s, id, phase);
    }
  }

  lemma ExclusionActs(s: Spec, id: nat, phase: nat)
    requires s.kind.Exclusion?
    ensures Removals(Starter(s, id, phase)) == {} && Dispositions(Starter(s, id, phase)) == {}
  {
    assert forall a :: a in Starter(s, id, phase) ==> a.Id? || a.Phase? || a.NoTransformation? || a.Pass? || a.NoLog?;
  }

  lemma RuleActs(s: Spec, id: nat, phase: nat)
    requires s.kind.Rule?
    ensures Removals(Starter(s, id, phase)) == {} && Dispositions(Starter(s, id, phase)) == Intended(s)
  {
    var own := Starter(s, id, phase);
    var front := [Id(id), Phase(phase), NoTransformation] + if s.action.Deny? then [DenyIt, Status(403)] else [Pass];
    assert own == front + [LogIt, Msg(s.id)];
    FrontActs(front, s.action.Deny?, id, phase);
    assert own[|own| - 1] in own && own[|own| - 2] in own;
    assert forall a :: a in own <==> a in front || a == LogIt || a == Msg(s.id);
  }

  lemma FrontActs(front: seq<Act>, denies: bool, id: nat, phase: nat)
    requires front == [Id(id), Phase(phase), NoTransformation] + if denies then [DenyIt, Status(403)] else [Pass]
    ensures forall a :: a in front ==> !a.Remove? && !a.Msg? && !a.LogIt? && (a.Status? ==> denies && a.code == 403)
    ensures denies ==> DenyIt in front && Status(403) in front
    ensures !denies ==> DenyIt !in front
  {
    if denies { assert front[3] == DenyIt && front[4] == Status(403); }
  }

  lemma AddedActs(a: seq<Act>, b: seq<Act>)
    requires forall x :: x in b ==> !x.DenyIt? && !x.Status? && !x.LogIt? && !x.Msg?
    ensures Removals(a + b) == Removals(a) + Removals(b) && Dispositions(a + b) == Dispositions(a)
  {
  }

  lemma ControlActs(s: Spec)
    ensures Removals(Control(s)) == if s.kind.Exclusion? then Intended(s) else {}
    ensures Removals([Chain]) == {} && Removals([NoTransformation]) == {}
  {
    assert s.kind.Exclusion? ==> Remove(s.excludeId, s.excludeParameter) in Control(s);
  }

  /** Only the last link of an exclusion removes anything; the starter of a rule disposes. */
  lemma LinkActs(s: Spec, id: nat, group: seq<Condition>, k: nat)
    requires k < |group|
    ensures Removals(Link(s, id, group, k).acts) == if k == |group| - 1 && s.kind.Exclusion? then Intended(s) else {}
    ensures Dispositions(Link(s, id, group, 0).acts) == if s.kind.Rule? then Intended(s) else {}
    ensures PhaseOf(Link(s, id, group, 0).acts) == GroupPhase(group)
  {
    hide Removals, Dispositions, PhaseOf, GroupPhase, Starter, Intended;
    var phase := GroupPhase(group);
    ControlActs(s);
    StarterActs(s, id, phase, [Chain]);
    StarterActs(s, id, phase, Control(s));
    AddedActs(Starter(s, id, phase), [Chain]);
    AddedActs(Starter(s, id, phase), Control(s));
    AddedActs([NoTransformation], [Chain]);
    AddedActs([NoTransformation], Control(s));
  }

  /** A compiled group acts as intended exactly if all its conditions hold. */
  lemma GroupMeans(s: Spec, id: nat, group: seq<Condition>, r: Request)
    requires Compilable(group)
    ensures Compiled(s, id, group) != []
    ensures ChainEffects(Compiled(s, id, group), r) == if AllHold(group, r) then Intended(s) else {}
  {
    if group == [] {
      UnconditionalMeans(s, id, r);
    } else {
      ConditionalMeans(s, id, group, r);
    }
  }

  lemma UnconditionalMeans(s: Spec, id: nat, r: Request)
    ensures ChainEffects([SecAction(Starter(s, id, 1) + Control(s))], r) == Intended(s)
  {
    hide Removals, Dispositions, PhaseOf, Starter, Intended;
    var acts := Starter(s, id, 1) + Control(s);
    ControlActs(s);
    StarterActs(s, id, 1, Control(s));
    AddedActs(Starter(s, id, 1), Control(s));
    assert Matching([SecAction(acts)], 1, r) == 1;
    assert [SecAction(acts)][0].acts == acts;
  }

  lemma ConditionalMeans(s: Spec, id: nat, group: seq<Condition>, r: Request)
    requires group != [] && Compilable(group)
    ensures Compiled(s, id, group) != []
    ensures ChainEffects(Compiled(s, id, group), r) == if AllHold(group, r) then Intended(s) else {}
  {
    hide Removals, Dispositions, PhaseOf, GroupPhase, Starter, Intended, Holds, Matches, Matching, Link, Compilable;
    var chain := Compiled(s, id, group);
    MatchingAll(s, id, group, 0, r);
    assert chain[0..] == chain;
    var n := Matching(chain, GroupPhase(group), r);
    assert n == |group| <==> AllHold(group, r);
    forall k | 0 <= k < |group|
      ensures Removals(chain[k].acts) == if k == |group| - 1 && s.kind.Exclusion? then Intended(s) else {}
    {
      LinkActs(s, id, group, k);
    }
    LinkActs(s, id, group, 0);
    var removed := set k, e | 0 <= k < n && e in Removals(chain[k].acts) :: e;
    assert removed == if n == |group| && s.kind.Exclusion? then Intended(s) else {} by {
      if n == |group| && s.kind.Exclusion? {
        assert forall e :: e in Intended(s) ==> e in Removals(chain[n - 1].acts);
      }
    }
  }

  lemma {:induction false} GroupsMean(s: Spec, groups: seq<seq<Condition>>, k: nat, r: Request)
    requires k <= |groups| && forall i :: 0 <= i < |groups| ==> Compilable(groups[i])
    ensures Effects(CompiledFrom(s, groups, k), r) == if SomeHolds(groups, k, r) then Intended(s) else {}
    decreases |groups| - k
  {
    hide Compilable, AllHold, Intended, ChainEffects, Compiled, CompiledFrom, Effects;
    CompiledStep(s, groups, k);
    NoEffects(r);
    if k < |groups| {
      GroupsMean(s, groups, k + 1, r);
      GroupMeans(s, s.id + k, groups[k], r);
      EffectsOf(s, s.id + k, groups[k], CompiledFrom(s, groups, k + 1), r);
      assert SomeHolds(groups, k, r) <==> AllHold(groups[k], r) || SomeHolds(groups, k + 1, r);
    }
  }

  lemma CompiledStep(s: Spec, groups: seq<seq<Condition>>, k: nat)
    requires k <= |groups|
    ensures CompiledFrom(s, groups, k) ==
              if k == |groups| then [] else Compiled(s, s.id + k, groups[k]) + CompiledFrom(s, groups, k + 1)
  {
  }

  lemma NoEffects(r: Request)
    ensures Effects([], r) == {}
  {
  }

  /** A compiled group in front adds the effects of its chain. */
  lemma EffectsOf(s: Spec, id: nat, group: seq<Condition>, rest: seq<Directive>, r: Request)
    ensures Compiled(s, id, group) != []
    ensures Effects(Compiled(s, id, group) + rest, r) == ChainEffects(Compiled(s, id, group), r) + Effects(rest, r)
  {
    hide ChainEffects, Compiled;
    ChainIs(s, id, group, rest);
    var chain := Compiled(s, id, group);
    assert (chain + rest)[..|chain|] == chain && (chain + rest)[|chain|..] == rest;
  }

  predicate SomeHolds(groups: seq<seq<Condition>>, k: nat, r: Request) {
    exists i :: k <= i < |groups| && AllHold(groups[i], r)
  }

  lemma ChainIs(s: Spec, id: nat, group: seq<Condition>, rest: seq<Directive>)
    ensures Compiled(s, id, group) != [] && ChainLength(Compiled(s, id, group) + rest) == |Compiled(s, id, group)|
  {
    var ds := Compiled(s, id, group) + rest;
    if group == [] {
      assert Chain !in ds[0].acts;
    } else {
      ChainEnds(s, id, group, rest, 0);
      assert ds[0..] == ds;
    }
  }

  /** The rules that are emitted take their effect exactly when the specification applies, and an
      old specification means what it meant. */
  lemma CompilationMeans(s: Spec, r: Request)
    requires Valid(s)
    ensures Effects(CompiledFrom(FormSpec(s), Groups(FormSpec(s)), 0), r) ==
              if SpecApplies(s, r) then Intended(s) else {}
  {
    var v2 := FormSpec(s);
    var groups := Groups(v2);
    UpgradeMeans(s, r);
    GroupsCompilable(s);
    GroupsMean(v2, groups, 0, r);
    GroupsApply(v2, r);
  }

  lemma UpgradeMeans(s: Spec, r: Request)
    requires Valid(s)
    ensures Intended(FormSpec(s)) == Intended(s)
    ensures SpecApplies(FormSpec(s), r) <==> SpecApplies(s, r)
    ensures FormSpec(FormSpec(s)) == FormSpec(s)
  {
    hide Holds;
    if s.V1? {
      var c := s.condition;
      assert AllHold([c], r) <==> Holds(c, r) by { assert [c][0] == c; }
    }
  }

  lemma GroupsCompilable(s: Spec)
    requires Valid(s)
    ensures var groups := Groups(FormSpec(s)); forall i :: 0 <= i < |groups| ==> Compilable(groups[i])
  {
    hide IsName, IsText;
  }

  lemma GroupsApply(s: Spec, r: Request)
    requires s.V2?
    ensures SomeHolds(Groups(s), 0, r) <==> SpecApplies(s, r)
  {
    hide Holds;
    var groups := Groups(s);
    if s.match_.All? || s.conditions == [] {
      assert groups[0] == s.conditions;
    } else {
      forall i | 0 <= i < |groups| ensures AllHold(groups[i], r) <==> Holds(s.conditions[i], r) {
        assert groups[i] == [s.conditions[i]] && groups[i][0] == s.conditions[i];
      }
    }
  }

  // ---------------------------------------------------------------------------------------
  // Every condition once, every identifier once
  // ---------------------------------------------------------------------------------------

  function IdsIn(acts: seq<Act>): seq<nat> {
    if acts == [] then [] else (if acts[0].Id? then [acts[0].id] else []) + IdsIn(acts[1..])
  }

  function AllIds(ds: seq<Directive>): seq<nat> {
    if ds == [] then [] else IdsIn(ds[0].acts) + AllIds(ds[1..])
  }

  /** The variables and operators that the directives test, in order. */
  function Tests(ds: seq<Directive>): seq<(string, string)> {
    if ds == [] then []
    else Test(ds[0]) + Tests(ds[1..])
  }

  function TestsOf(cs: seq<Condition>): seq<(string, string)> {
    seq(|cs|, i requires 0 <= i < |cs| => (Variable(cs[i].field, cs[i].key), OperatorText(cs[i])))
  }

  function Flat(groups: seq<seq<Condition>>, k: nat): seq<Condition>
    requires k <= |groups|
    decreases |groups| - k
  {
    if k == |groups| then [] else groups[k] + Flat(groups, k + 1)
  }

  lemma {:induction false} NoIds(acts: seq<Act>)
    requires forall a :: a in acts ==> !a.Id?
    ensures IdsIn(acts) == []
  {
    if acts != [] { NoIds(acts[1..]); }
  }

  lemma StarterIds(s: Spec, id: nat, phase: nat, more: seq<Act>)
    requires forall a :: a in more ==> !a.Id?
    ensures IdsIn(Starter(s, id, phase) + more) == [id]
  {
    var acts := Starter(s, id, phase) + more;
    assert acts[0] == Id(id);
    assert acts[1..] == Starter(s, id, phase)[1..] + more;
    NoIds(acts[1..]);
  }

  lemma Joined(a: seq<Directive>, b: seq<Directive>)
    ensures AllIds(a + b) == AllIds(a) + AllIds(b) && Tests(a + b) == Tests(a) + Tests(b)
  {
    IdsJoined(a, b);
    TestsJoined(a, b);
  }

  lemma {:induction false} IdsJoined(a: seq<Directive>, b: seq<Directive>)
    ensures AllIds(a + b) == AllIds(a) + AllIds(b)
  {
    hide IdsIn;
    if a == [] {
      assert a + b == b;
    } else {
      IdsJoined(a[1..], b);
      assert (a + b)[1..] == a[1..] + b && (a + b)[0] == a[0];
      var first, middle, last := IdsIn(a[0].acts), AllIds(a[1..]), AllIds(b);
      assert AllIds(a + b) == first + AllIds((a + b)[1..]);
      assert first + (middle + last) == (first + middle) + last;
    }
  }

  function Test(d: Directive): seq<(string, string)> {
    if d.SecRule? then [(d.variable, d.operator)] else []
  }

  lemma {:induction false} TestsJoined(a: seq<Directive>, b: seq<Directive>)
    ensures Tests(a + b) == Tests(a) + Tests(b)
  {
    hide Test;
    if a == [] {
      assert a + b == b;
    } else {
      TestsJoined(a[1..], b);
      assert (a + b)[1..] == a[1..] + b && (a + b)[0] == a[0];
      var first, middle, last := Test(a[0]), Tests(a[1..]), Tests(b);
      assert Tests(a + b) == first + Tests((a + b)[1..]);
      assert first + (middle + last) == (first + middle) + last;
    }
  }

  lemma {:induction false} LinksOnce(s: Spec, id: nat, group: seq<Condition>, j: nat)
    requires j <= |group| && group != []
    ensures AllIds(Compiled(s, id, group)[j..]) == if j == 0 then [id] else []
    ensures Tests(Compiled(s, id, group)[j..]) == TestsOf(group)[j..]
    decreases |group| - j
  {
    hide Starter, Link, TestsOf, IdsIn;
    var chain := Compiled(s, id, group);
    TestsAre(group);
    if j < |group| {
      LinksOnce(s, id, group, j + 1);
      LinkOnce(s, id, group, j);
      assert chain[j..][0] == Link(s, id, group, j) && chain[j..][1..] == chain[j + 1..];
      assert TestsOf(group)[j..] == [TestsOf(group)[j]] + TestsOf(group)[j + 1..];
    }
  }

  lemma TestsAre(group: seq<Condition>)
    ensures |TestsOf(group)| == |group|
    ensures forall j :: 0 <= j < |group| ==>
              TestsOf(group)[j] == (Variable(group[j].field, group[j].key), OperatorText(group[j]))
  {
  }

  lemma LinkOnce(s: Spec, id: nat, group: seq<Condition>, j: nat)
    requires j < |group|
    ensures var link := Link(s, id, group, j);
            && link.SecRule? && (link.variable, link.operator) ==
                 (Variable(group[j].field, group[j].key), OperatorText(group[j]))
            && IdsIn(link.acts) == if j == 0 then [id] else []
  {
    hide Starter, IdsIn;
    StarterIds(s, id, GroupPhase(group), [Chain]);
    StarterIds(s, id, GroupPhase(group), Control(s));
    if j > 0 { NoIds(Link(s, id, group, j).acts); }
  }

  lemma GroupOnce(s: Spec, id: nat, group: seq<Condition>)
    ensures AllIds(Compiled(s, id, group)) == [id] && Tests(Compiled(s, id, group)) == TestsOf(group)
  {
    var chain := Compiled(s, id, group);
    if group == [] {
      StarterIds(s, id, 1, Control(s));
      assert chain[1..] == [];
    } else {
      LinksOnce(s, id, group, 0);
      assert chain[0..] == chain && TestsOf(group)[0..] == TestsOf(group);
    }
  }

  lemma {:induction false} GroupsOnce(s: Spec, groups: seq<seq<Condition>>, k: nat)
    requires k <= |groups|
    ensures AllIds(CompiledFrom(s, groups, k)) == seq(|groups| - k, i requires 0 <= i => s.id + k + i)
    ensures Tests(CompiledFrom(s, groups, k)) == TestsOf(Flat(groups, k))
    decreases |groups| - k
  {
    hide Compiled, AllIds, Tests;
    if k < |groups| {
      GroupsOnce(s, groups, k + 1);
      GroupOnce(s, s.id + k, groups[k]);
      Joined(Compiled(s, s.id + k, groups[k]), CompiledFrom(s, groups, k + 1));
      assert TestsOf(Flat(groups, k)) == TestsOf(groups[k]) + TestsOf(Flat(groups, k + 1));
    } else {
      assert AllIds([]) == [] && Tests([]) == [] by { Nothing(); }
    }
  }

  lemma Nothing()
    ensures AllIds([]) == [] && Tests([]) == []
  {
  }

  lemma {:induction false} FlatSingletons(cs: seq<Condition>, groups: seq<seq<Condition>>, k: nat)
    requires |groups| == |cs| && k <= |cs| && forall i :: 0 <= i < |cs| ==> groups[i] == [cs[i]]
    ensures Flat(groups, k) == cs[k..]
    decreases |cs| - k
  {
    if k < |cs| { FlatSingletons(cs, groups, k + 1); }
  }

  /** The emitted directives test the conditions of the specification, each once and in order, and
      carry its identifiers, each once; those are distinct and consecutive. */
  lemma EmittedOnce(s: Spec)
    requires Valid(s)
    ensures var lines := CompiledFrom(FormSpec(s), Groups(FormSpec(s)), 0);
            Tests(lines) == TestsOf(FormSpec(s).conditions) && AllIds(lines) == RuleIds(s)
    ensures RuleIds(s) != [] && forall i :: 0 <= i < |RuleIds(s)| ==> RuleIds(s)[i] == s.id + i
  {
    hide AllIds, Tests, CompiledFrom, TestsOf;
    var v2 := FormSpec(s);
    var groups := Groups(v2);
    GroupsOnce(v2, groups, 0);
    assert RuleIds(v2) == RuleIds(s);
    if v2.match_.All? || v2.conditions == [] {
      assert Flat(groups, 1) == [];
      assert groups[0] == v2.conditions;
      assert Flat(groups, 0) == v2.conditions;
    } else {
      FlatSingletons(v2.conditions, groups, 0);
      assert v2.conditions[0..] == v2.conditions;
    }
  }

  /** The identifiers are ones that the wizard may use, and an exclusion removes none of its own rules;
      it runs in phase 1, before every rule of phase 2 that it could remove. */
  lemma IdentifiersFit(s: Spec)
    requires Valid(s)
    ensures forall id :: id in AllIds(Directives(s)) ==> 1 <= id <= 99999
    ensures s.kind.Exclusion? ==> 1 <= s.excludeId <= 2147483647 && s.excludeId !in AllIds(Directives(s))
    ensures s.kind.Exclusion? ==> forall i :: 0 <= i < |Groups(FormSpec(s))| ==> GroupPhase(Groups(FormSpec(s))[i]) == 1
  {
    hide AllIds, CompiledFrom, ValidCondition;
    EmittedOnce(s);
  }

  // ---------------------------------------------------------------------------------------
  // Allocating identifiers
  // ---------------------------------------------------------------------------------------

  predicate Free(used: set<nat>, first: nat, count: nat) {
    forall i :: first <= i < first + count ==> i !in used
  }

  /** One range of candidates: the lowest free block in it, if there is one. */
  method FindBlock(used: set<nat>, low: nat, high: nat, count: nat) returns (r: Option<nat>)
    requires count > 0
    ensures r.Some? ==> low <= r.value && r.value + count <= high && Free(used, r.value, count)
    ensures forall first: nat :: low <= first && first + count <= high && Free(used, first, count) ==>
              r.Some? && r.value <= first
  {
    var run := 0;
    var id := low;
    while id < high
      invariant low <= id && run <= id - low && run < count
      invariant id > high ==> id == low
      invariant Free(used, id - run, run)
      invariant run < id - low ==> id - run - 1 in used
      invariant forall first: nat :: low <= first && first + count <= id ==> !Free(used, first, count)
    {
      run := if id in used then 0 else run + 1;
      id := id + 1;
      if run == count {
        assert Free(used, id - count, count);
        return Some(id - count);
      }
      forall first: nat | low <= first && first + count <= id ensures !Free(used, first, count) {
        if first + count == id {
          assert run < id - low;
          assert first <= id - run - 1 < first + count;
        }
      }
    }
    r := None;
  }

  /** available_id: the lowest block of free identifiers from 10000 on, else the lowest of all. */
  method AvailableId(used: set<nat>, count: nat) returns (r: Option<nat>)
    requires count > 0
    ensures r.Some? ==> 1 <= r.value && r.value + count <= 100000 && Free(used, r.value, count)
    ensures r.None? <==> forall first: nat :: 1 <= first && first + count <= 100000 ==> !Free(used, first, count)
    ensures forall first: nat :: 10000 <= first && first + count <= 100000 && Free(used, first, count) ==>
                                   r.Some? && 10000 <= r.value <= first
    ensures forall first: nat ::
              1 <= first && first + count <= 100000 && Free(used, first, count) && r.Some? && r.value < 10000 ==>
                                   r.value <= first < 10000
  {
    r := FindBlock(used, 10000, 100000, count);
    if r.None? {
      var high := if 10000 + count - 1 < 100000 then 10000 + count - 1 else 100000;
      r := FindBlock(used, 1, high, count);
    }
  }
}
