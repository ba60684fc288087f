/** Sections of an HAProxy configuration and the editor that rewrites one
    (app/modules/config/viewer.py, app/modules/config/section.py). */
module Sections {
  import opened Outcomes
  import opened TextLines

  const KEYWORDS: set<string> :=
    {"global", "defaults", "frontend", "backend", "listen", "peers", "resolvers", "userlist", "cache", "http-errors",
     "log-forward", "ring", "program", "mailers", "fcgi-app", "traces"}

  const MARKER_START := "# BEGIN Roxy-WI MANAGED "
  const MARKER_END := " do not edit it directly"

  /** The name between the words of a marker, if a stripped line is one. */
  function MarkerName(line: string): Option<string> {
    if |line| > |MARKER_START| + |MARKER_END| && MARKER_START <= line && line[|line| - |MARKER_END|..] == MARKER_END
    then
      Some(line[|MARKER_START|..|line| - |MARKER_END|])
    else None
  }

  /** What a line is to the parser. */
  datatype Line = Marker(managed: string) | Comment | Header(title: string, kind: string, name: string) | Plain

  function Classify(line: string): Line {
    var stripped := Strip(line);
    var tokens := Tokens(stripped);
    if MarkerName(stripped).Some? then Marker(MarkerName(stripped).value)
    else if stripped == "" || stripped[0] == '#' then Comment
    else if tokens != [] && tokens[0] in KEYWORDS then
      Header(stripped, tokens[0], if |tokens| > 1 && !("#" <= tokens[1]) then tokens[1] else tokens[0])
    else Plain
  }

  /** What a line can be, in terms of its text: a blank line or a comment, with or without an indent,
      never begins a section nor comes between a section and its marker; a header begins with a keyword,
      and what follows names the section unless it is a comment. */
  lemma LineKinds(line: string)
    ensures BeforeHash(Strip(line)) == "" ==> Classify(line).Comment? || Classify(line).Marker?
    ensures Classify(line).Marker? ==> Strip(line)[0] == '#'
    ensures Classify(line).Header? ==>
              var tokens, c := Tokens(Strip(line)), Classify(line);
              && tokens != [] && tokens[0] == c.kind && c.kind in KEYWORDS && c.title == Strip(line)
              && c.name == (if |tokens| > 1 && BeforeHash(tokens[1]) != "" then tokens[1] else c.kind)
    ensures Classify(line).Plain? ==> BeforeHash(Strip(line)) != ""
  {
    var stripped := Strip(line);
    if |Tokens(stripped)| > 1 { NoEmptyTokens(stripped, 1); }
  }

  lemma {:induction false} NoEmptyTokens(s: string, k: nat)
    requires k < |Tokens(s)|
    ensures Tokens(s)[k] != ""
  {
    if IsSpace(s[0]) {
      NoEmptyTokens(s[1..], k);
    } else if k > 0 {
      NoEmptyTokens(s[WordEnd(s)..], k - 1);
    }
  }

  /** The managed name of a section. */
  function Identity(kind: string, name: string): string {
    if kind == name then kind else kind + " " + name
  }

  datatype Section = Section(start: nat, header: nat, end: nat, title: string, kind: string, name: string)

  datatype Pending = Nothing | At(index: nat, managed: string)

  /** Where a section begins: at the marker that waits for it, or at its header. */
  function Begin(pending: Pending, index: nat, identity: string): nat {
    if pending.At? && pending.managed == identity then pending.index else index
  }

  /** The sections that start in `lines`, of which the first has the number `base`; ends are open. */
  function Scan(lines: seq<string>, base: nat, pending: Pending): seq<Section> {
    if lines == [] then []
    else
      match Classify(lines[0])
      case Marker(managed) => Scan(lines[1..], base + 1, At(base, managed))
      case Comment => Scan(lines[1..], base + 1, pending)
      case Plain => Scan(lines[1..], base + 1, Nothing)
      case Header(title, kind, name) =>
        [Section(Begin(pending, base, Identity(kind, name)), base, 0, title, kind, name)]
        + Scan(lines[1..], base + 1, Nothing)
  }

  /** The marker that waits behind `lines`. */
  function Waiting(lines: seq<string>, base: nat, pending: Pending): Pending {
    if lines == [] then pending
    else
      match Classify(lines[0])
      case Marker(managed) => Waiting(lines[1..], base + 1, At(base, managed))
      case Comment => Waiting(lines[1..], base + 1, pending)
      case _ => Waiting(lines[1..], base + 1, Nothing)
  }

  function WithPreamble(starts: seq<Section>, count: nat): seq<Section> {
    if count > 0 && (starts == [] || starts[0].start != 0) then [Section(0, 0, 0, "", "preamble", "")] + starts
    else starts
  }

  function Closed(starts: seq<Section>, count: nat): (sections: seq<Section>)
    ensures |sections| == |starts|
  {
    seq(|starts|, k requires 0 <= k < |starts| =>
          starts[k].(end := if k + 1 < |starts| then starts[k + 1].start else count))
  }

  /** What haproxy_sections computes. */
  function SectionsOf(lines: seq<string>): seq<Section> {
    Closed(WithPreamble(Scan(lines, 0, Nothing), |lines|), |lines|)
  }

  /** haproxy_sections. */
  method HaproxySections(text: string) returns (sections: seq<Section>)
    ensures sections == SectionsOf(SourceLines(text))
    ensures Partition(sections, SourceLines(text))
    ensures TextOf(sections, SourceLines(text)) == text
  {
    hide *;
    var lines := SourceLines(text);
    var starts := FindStarts(lines);
    sections := Ranges(starts, |lines|);
    SectionsAre(lines);
    SectionsPartition(lines);
    PartitionLossless(sections, lines);
    JoinSource(text);
  }

  lemma SectionsAre(lines: seq<string>)
    ensures SectionsOf(lines) == Closed(WithPreamble(Scan(lines, 0, Nothing), |lines|), |lines|)
  {
  }

  method FindStarts(lines: seq<string>) returns (starts: seq<Section>)
    ensures starts == Scan(lines, 0, Nothing)
  {
    hide Classify, Begin, Identity;
    starts := [];
    var pending := Nothing;
    assert lines[0..] == lines;
    for index := 0 to |lines|
      invariant Scan(lines, 0, Nothing) == starts + Scan(lines[index..], index, pending)
    {
      var rest := lines[index..];
      assert rest[0] == lines[index] && rest[1..] == lines[index + 1..];
      ghost var before, unread := starts, Scan(rest, index, pending);
      match Classify(lines[index]) {
        case Marker(managed) =>
          pending := At(index, managed);
        case Comment =>
        case Plain =>
          pending := Nothing;
        case Header(title, kind, name) =>
          starts := starts + [Section(Begin(pending, index, Identity(kind, name)), index, 0, title, kind, name)];
          pending := Nothing;
      }
      assert before + unread == starts + Scan(rest[1..], index + 1, pending);
    }
    assert Scan(lines[|lines|..], |lines|, pending) == [];
  }

  /** _ranges. */
  method Ranges(starts: seq<Section>, count: nat) returns (sections: seq<Section>)
    ensures sections == Closed(WithPreamble(starts, count), count)
  {
    sections := starts;
    if count > 0 && (starts == [] || starts[0].start != 0) {
      sections := [Section(0, 0, 0, "", "preamble", "")] + sections;
    }
    ghost var open := sections;
    for k := 0 to |sections|
      invariant |sections| == |open|
      invariant forall i :: 0 <= i < |open| ==> sections[i] == if i < k then Closed(open, count)[i] else open[i]
    {
      sections := sections[k := sections[k].(end := if k + 1 < |sections| then sections[k + 1].start else count)];
    }
    assert sections == Closed(open, count);
  }

  // ---------------------------------------------------------------------------------------
  // Lossless partition
  // ---------------------------------------------------------------------------------------

  /** Consecutive ranges of all lines; each holds its header line. */
  ghost predicate Partition(sections: seq<Section>, lines: seq<string>) {
    && (lines == [] <==> sections == [])
    && (forall k :: 0 <= k < |sections| ==> sections[k].start <= sections[k].header < sections[k].end <= |lines|)
    && (forall j, k :: 0 <= j < k < |sections| && k == j + 1 ==> sections[j].end == sections[k].start)
    && (sections != [] ==> sections[0].start == 0 && sections[|sections| - 1].end == |lines|)
  }

  function SectionText(s: Section, lines: seq<string>): string
    requires s.start <= s.end <= |lines|
  {
    Join(lines[s.start..s.end])
  }

  function TextOf(sections: seq<Section>, lines: seq<string>): string {
    if sections == [] then ""
    else if sections[0].start <= sections[0].end <= |lines| then
      SectionText(sections[0], lines) + TextOf(sections[1..], lines)
    else ""
  }

  /** The sections in `starts` are in order, with headers from `low` on and below `high`. */
  predicate Ordered(starts: seq<Section>, low: nat, high: nat) {
    && (forall k :: 0 <= k < |starts| ==> low <= starts[k].header < high && starts[k].start <= starts[k].header)
    && (forall j, k :: 0 <= j < k < |starts| ==> starts[j].header < starts[k].start)
  }

  /** The first section of a scan begins at its first line or later, or at the marker before it. */
  predicate BeginsFrom(starts: seq<Section>, base: nat, pending: Pending) {
    starts != [] ==> starts[0].start >= base || (pending.At? && starts[0].start == pending.index)
  }

  /** The marker that waits behind a line, and the section that begins with it, if one does. */
  function Behind(line: string, base: nat, pending: Pending): Pending {
    match Classify(line)
    case Marker(managed) => At(base, managed)
    case Comment => pending
    case _ => Nothing
  }

  function Started(line: string, base: nat, pending: Pending): seq<Section> {
    match Classify(line)
    case Header(title, kind, name) =>
      [Section(Begin(pending, base, Identity(kind, name)), base, 0, title, kind, name)]
    case _ => []
  }

  lemma ScanStep(lines: seq<string>, base: nat, pending: Pending)
    ensures lines == [] ==> Scan(lines, base, pending) == [] && Waiting(lines, base, pending) == pending
    ensures lines != [] ==>
              var behind := Behind(lines[0], base, pending);
              && Scan(lines, base, pending) == Started(lines[0], base, pending) + Scan(lines[1..], base + 1, behind)
              && Waiting(lines, base, pending) == Waiting(lines[1..], base + 1, behind)
  {
    hide Classify, Begin, Identity;
  }

  lemma {:induction false} ScanOrder(lines: seq<string>, base: nat, pending: Pending)
    requires pending.At? ==> pending.index < base
    ensures Ordered(Scan(lines, base, pending), base, base + |lines|)
    ensures BeginsFrom(Scan(lines, base, pending), base, pending)
  {
    hide *;
    ScanStep(lines, base, pending);
    if lines == [] {
      OrderedNothing(base, pending);
    } else {
      var behind := Behind(lines[0], base, pending);
      StartedFits(lines[0], base, pending);
      ScanOrder(lines[1..], base + 1, behind);
      ScanFront(Started(lines[0], base, pending), Scan(lines[1..], base + 1, behind), base, base + |lines|, behind,
          pending);
    }
  }

  /** Line m is a marker of the name, with nothing but comments between it and line h. */
  predicate Names(lines: seq<string>, m: nat, h: nat, name: string) {
    m < h <= |lines| && Classify(lines[m]) == Marker(name) && forall j :: m < j < h ==> Classify(lines[j]).Comment?
  }

  /** A section begins at the marker that names it, if there is one right above it, and otherwise at its
      header, whatever other markers there are. */
  ghost predicate BeginsRight(lines: seq<string>, s: Section) {
    && s.header < |lines| && Classify(lines[s.header]) == Header(s.title, s.kind, s.name)
    && if s.start == s.header then forall m: nat :: !Names(lines, m, s.header, Identity(s.kind, s.name))
       else Names(lines, s.start, s.header, Identity(s.kind, s.name))
  }

  /** What waits before line i: the last marker, if only comments follow it. */
  ghost predicate Awaits(lines: seq<string>, i: nat, p: Pending)
    requires i <= |lines|
  {
    match p
    case At(m, managed) => Names(lines, m, i, managed)
    case Nothing => forall m: nat, name :: !Names(lines, m, i, name)
  }

  lemma {:induction false} StartsRight(lines: seq<string>, i: nat, pending: Pending)
    requires i <= |lines| && Awaits(lines, i, pending)
    ensures forall k :: 0 <= k < |Scan(lines[i..], i, pending)| ==> BeginsRight(lines, Scan(lines[i..], i, pending)[k])
    decreases |lines| - i
  {
    hide Classify, Identity;
    if i < |lines| {
      assert lines[i..][0] == lines[i] && lines[i..][1..] == lines[i + 1..];
      var next := match Classify(lines[i])
                  case Marker(managed) => At(i, managed)
                  case Comment => pending
                  case _ => Nothing;
      AwaitsNext(lines, i, pending, next);
      StartsRight(lines, i + 1, next);
      if Classify(lines[i]).Header? { BeginRight(lines, i, pending); }
    }
  }

  lemma AwaitsNext(lines: seq<string>, i: nat, p: Pending, q: Pending)
    requires i < |lines| && Awaits(lines, i, p)
    requires q == match Classify(lines[i])
                  case Marker(managed) => At(i, managed)
                  case Comment => p
                  case _ => Nothing
    ensures Awaits(lines, i + 1, q)
  {
    hide Classify;
    if q.Nothing? {
      var next := i + 1;
      forall m: nat, name ensures !Names(lines, m, next, name) {
        if m < i && Classify(lines[i]).Comment? { assert !Names(lines, m, i, name); }
      }
    }
  }

  lemma BeginRight(lines: seq<string>, i: nat, pending: Pending)
    requires i < |lines| && Awaits(lines, i, pending) && Classify(lines[i]).Header?
    ensures var c := Classify(lines[i]);
            BeginsRight(lines, Section(Begin(pending, i, Identity(c.kind, c.name)), i, 0, c.title, c.kind, c.name))
  {
    hide Classify, Identity;
    if pending.At? {
      forall m: nat, name | Names(lines, m, i, name) ensures m == pending.index && name == pending.managed {
      }
    }
  }

  /** In every text: a marker moves the start of the section that it names, and of no other. */
  lemma MarkersNamed(lines: seq<string>, k: nat)
    requires k < |SectionsOf(lines)| && SectionsOf(lines)[k].kind != "preamble"
    ensures BeginsRight(lines, SectionsOf(lines)[k])
  {
    hide BeginsRight;
    assert lines[0..] == lines;
    StartsRight(lines, 0, Nothing);
    var starts := Scan(lines, 0, Nothing);
    var all := WithPreamble(starts, |lines|);
    var j := if all == starts then k else k - 1;
    assert all[k] == starts[j];
    EndIgnored(lines, starts[j], SectionsOf(lines)[k].end);
  }

  /** Every header line has its section. */
  lemma EveryHeader(lines: seq<string>, h: nat) returns (k: nat)
    requires h < |lines| && Classify(lines[h]).Header?
    ensures k < |SectionsOf(lines)| && SectionsOf(lines)[k].header == h && SectionsOf(lines)[k].kind != "preamble"
    ensures SectionsOf(lines)[k].title == Strip(lines[h])
  {
    hide Classify, Scan, Strip, BeginsRight;
    assert lines[0..] == lines;
    var starts := Scan(lines, 0, Nothing);
    var j := HeaderFound(lines, 0, Nothing, h);
    NoPreamble(starts[j].kind);
    k := if WithPreamble(starts, |lines|) == starts then j else j + 1;
    assert WithPreamble(starts, |lines|)[k] == starts[j];
  }

  lemma NoPreamble(kind: string)
    requires kind in KEYWORDS
    ensures kind != "preamble"
  {
  }

  lemma {:induction false} HeaderFound(lines: seq<string>, i: nat, pending: Pending, h: nat) returns (k: nat)
    requires i <= h < |lines| && Classify(lines[h]).Header?
    ensures var starts := Scan(lines[i..], i, pending);
            && k < |starts| && starts[k].header == h
            && starts[k].kind in KEYWORDS && starts[k].title == Strip(lines[h])
    decreases h - i
  {
    assert lines[i..][0] == lines[i] && lines[i..][1..] == lines[i + 1..];
    if i == h {
      k := 0;
    } else {
      var next := match Classify(lines[i])
                  case Marker(managed) => At(i, managed)
                  case Comment => pending
                  case _ => Nothing;
      k := HeaderFound(lines, i + 1, next, h);
      if Classify(lines[i]).Header? { k := k + 1; }
    }
  }

  lemma EndIgnored(lines: seq<string>, s: Section, end: nat)
    ensures BeginsRight(lines, s) <==> BeginsRight(lines, s.(end := end))
  {
  }

  lemma ScanFront(first: seq<Section>, rest: seq<Section>, base: nat, high: nat, behind: Pending, pending: Pending)
    requires Ordered(rest, base + 1, high) && BeginsFrom(rest, base + 1, behind) && |first| <= 1 && base < high
    requires behind == pending || behind.Nothing? || (behind.At? && behind.index == base)
    requires first != [] ==>
               && behind.Nothing? && first[0].header == base
               && (first[0].start == base || (pending.At? && first[0].start == pending.index < base))
    ensures Ordered(first + rest, base, high) && BeginsFrom(first + rest, base, pending)
  {
    hide Ordered, BeginsFrom;
    if first == [] {
      OrderedLater(rest, base, high, behind, pending);
      assert first + rest == rest;
    } else {
      OrderedFirst(first[0], rest, base, high, pending);
      assert first + rest == [first[0]] + rest;
    }
  }

  lemma StartedFits(line: string, base: nat, pending: Pending)
    requires pending.At? ==> pending.index < base
    ensures var first, behind := Started(line, base, pending), Behind(line, base, pending);
            && (behind.At? ==> behind.index <= base)
            && (behind == pending || behind.Nothing? || (behind.At? && behind.index == base))
            && |first| <= 1
            && (first != [] ==> && behind.Nothing? && first[0].header == base
                                && (first[0].start == base || (pending.At? && first[0].start == pending.index)))
  {
    hide Classify, Identity;
  }

  lemma OrderedNothing(base: nat, pending: Pending)
    ensures Ordered([], base, base) && BeginsFrom([], base, pending)
  {
  }

  lemma OrderedLater(starts: seq<Section>, base: nat, high: nat, p: Pending, q: Pending)
    requires Ordered(starts, base + 1, high) && BeginsFrom(starts, base + 1, p)
    requires p == q || p.Nothing? || (p.At? && p.index == base)
    ensures Ordered(starts, base, high) && BeginsFrom(starts, base, q)
  {
  }

  lemma OrderedFirst(first: Section, rest: seq<Section>, base: nat, high: nat, pending: Pending)
    requires Ordered(rest, base + 1, high) && BeginsFrom(rest, base + 1, Nothing) && first.header == base < high
    requires first.start == base || (pending.At? && first.start == pending.index < base)
    ensures Ordered([first] + rest, base, high) && BeginsFrom([first] + rest, base, pending)
  {
    var starts := [first] + rest;
    assert forall k :: 0 < k < |starts| ==> starts[k] == rest[k - 1];
  }

  /** Every text is covered by its sections without gap or overlap. */
  lemma SectionsPartition(lines: seq<string>)
    ensures Partition(SectionsOf(lines), lines)
  {
    ScanOrder(lines, 0, Nothing);
    ScanStep(lines, 0, Nothing);
    hide Scan, Waiting, Ordered, WithPreamble, Partition, Closed;
    PreambleOrdered(Scan(lines, 0, Nothing), |lines|);
    ClosedPartition(WithPreamble(Scan(lines, 0, Nothing), |lines|), lines);
  }

  lemma ClosedPartition(starts: seq<Section>, lines: seq<string>)
    requires Ordered(starts, 0, |lines|) && (starts != [] ==> starts[0].start == 0) && (starts == [] <==> |lines| == 0)
    ensures Partition(Closed(starts, |lines|), lines)
  {
    var sections := Closed(starts, |lines|);
    forall k | 0 <= k < |sections|
      ensures sections[k].start <= sections[k].header < sections[k].end <= |lines|
    {
      if k + 1 < |starts| { assert starts[k].header < starts[k + 1].start; }
    }
  }

  lemma PreambleOrdered(starts: seq<Section>, count: nat)
    requires Ordered(starts, 0, count) && (count == 0 ==> starts == [])
    ensures var all := WithPreamble(starts, count);
            && Ordered(all, 0, count) && (all != [] ==> all[0].start == 0) && (all == [] <==> count == 0)
  {
    var all := WithPreamble(starts, count);
    if all != starts {
      assert all[0].start == all[0].header == 0;
      assert forall k :: 0 < k < |all| ==> all[k] == starts[k - 1];
      assert starts != [] ==> starts[0].start > 0;
    }
  }

  lemma {:induction false} PartitionTail(sections: seq<Section>, lines: seq<string>)
    requires sections != []
    requires forall k :: 0 <= k < |sections| ==> sections[k].start <= sections[k].end <= |lines|
    requires forall j, k :: 0 <= j < k < |sections| && k == j + 1 ==> sections[j].end == sections[k].start
    requires sections[|sections| - 1].end == |lines|
    ensures TextOf(sections, lines) == Join(lines[sections[0].start..])
  {
    var first := sections[0];
    if |sections| > 1 {
      PartitionTail(sections[1..], lines);
      JoinAppend(lines[first.start..first.end], lines[first.end..]);
      assert lines[first.start..] == lines[first.start..first.end] + lines[first.end..];
    } else {
      assert TextOf(sections[1..], lines) == "";
      assert lines[first.start..] == lines[first.start..first.end];
    }
  }

  lemma PartitionLossless(sections: seq<Section>, lines: seq<string>)
    requires Partition(sections, lines)
    ensures TextOf(sections, lines) == Join(lines)
  {
    if sections != [] {
      PartitionTail(sections, lines);
      assert lines[0..] == lines;
    }
  }

  // ---------------------------------------------------------------------------------------
  // Reading and rewriting one section
  // ---------------------------------------------------------------------------------------

  /** The section that a request names, by its header line if it gives that. */
  predicate Named(s: Section, title: string, line: Option<nat>) {
    s.title == Strip(title) && s.kind != "preamble" && (line.Some? ==> s.header + 1 == line.value)
  }

  function Candidates(sections: seq<Section>, title: string, line: Option<nat>): seq<Section> {
    if sections == [] then []
    else (if Named(sections[0], title, line) then [sections[0]] else []) + Candidates(sections[1..], title, line)
  }

  datatype Extract = Extract(start: nat, last: nat, text: string)

  /** get_section_from_config; an unknown or ambiguous name is refused. */
  function GetSection(text: string, title: string, line: Option<nat>): Option<Extract> {
    var lines := SourceLines(text);
    var found := Candidates(SectionsOf(lines), title, line);
    if |found| == 1 && found[0].start < found[0].end <= |lines| then
      Some(Extract(found[0].start, found[0].end - 1, SectionText(found[0], lines)))
    else None
  }

  predicate EndsWith(s: string, suffix: string) {
    |s| >= |suffix| && s[|s| - |suffix|..] == suffix
  }

  /** The text of a section as it is put in place of the lines start to end. */
  function Terminated(lines: seq<string>, start: nat, end: nat, section: string): string
    requires start <= end < |lines|
  {
    if section != "" && !EndsLine(section) && (end + 1 < |lines| || EndsLine(lines[end])) then
      section + if EndsWith(lines[start], "\r\n") then "\r\n" else "\n"
    else section
  }

  function Rewrite(start: int, end: int, text: string, section: string): Option<string> {
    var lines := SourceLines(text);
    var last := if end == |lines| then end - 1 else end;
    if start < 0 || last < start || last >= |lines| then None
    else Some(Join(lines[..start]) + Terminated(lines, start, last, section) + Join(lines[last + 1..]))
  }

  /** What a rewrite of the lines start to last leaves and puts in their place: every other line is as
      it was, and the lines between are the section, with a newline at its end if one was missing and
      something follows. */
  predicate Rewritten(text: string, start: nat, last: nat, section: string, result: string) {
    Replaced(SourceLines(text), start, last, section, SourceLines(result))
  }

  predicate Replaced(lines: seq<string>, start: nat, last: nat, section: string, now: seq<string>) {
    && start <= last < |lines| && |now| >= start + (|lines| - 1 - last)
    && var rest := |now| - (|lines| - 1 - last);
       && now[..start] == lines[..start] && now[rest..] == lines[last + 1..]
       && Join(now[start..rest]) in {section, section + "\n", section + "\r\n"}
       && (section != "" && rest < |now| ==> EndsLine(now[rest - 1]))
       && (EndsLine(section) || section == "" ==> Join(now[start..rest]) == section)
  }

  /** rewrite_section. A range is refused exactly if it is not one of the lines of the file; the number
      of the lines, as older editors sent it for the last section, counts as the last line. */
  method RewriteSection(start: int, end: int, text: string, section: string) returns (r: Option<string>)
    ensures var count := |SourceLines(text)|;
            r.None? <==> !(0 <= start <= end < count) && !(0 <= start < end == count)
    ensures r.Some? ==>
              var last := if end == |SourceLines(text)| then end - 1 else end;
              0 <= start <= last && Rewritten(text, start, last, section, r.value)
    ensures r == Rewrite(start, end, text, section)
  {
    hide Rewritten, Join;
    var lines := SourceLines(text);
    var last, body := end, section;
    if last == |lines| { last := last - 1; }
    if start < 0 || last < start || last >= |lines| { return None; }
    var newline := if EndsWith(lines[start], "\r\n") then "\r\n" else "\n";
    if body != "" && !EndsLine(body) && (last + 1 < |lines| || EndsLine(lines[last])) {
      body := body + newline;
    }
    r := Some(Join(lines[..start]) + body + Join(lines[last + 1..]));
    RewriteKeeps(text, start, last, section);
  }

  lemma RewriteKeeps(text: string, start: nat, last: nat, section: string)
    requires start <= last < |SourceLines(text)|
    ensures var lines := SourceLines(text);
            Rewritten(text, start, last, section,
                      Join(lines[..start]) + Terminated(lines, start, last, section) + Join(lines[last + 1..]))
  {
    hide SourceLines, Join, Proper, Terminated, EndsLine, Replaced;
    var lines := SourceLines(text);
    var body := Terminated(lines, start, last, section);
    var middle := SourceLines(body);
    SourceProper(text);
    SourceProper(body);
    JoinSource(body);
    TerminatedEnds(lines, start, last, section);
    BodyEnds(body);
    ProperAround(lines, start, last + 1, middle);
    JoinAround(lines[..start], middle, lines[last + 1..]);
    SourceOfJoin(lines[..start] + middle + lines[last + 1..]);
    ReplacedBy(lines, start, last, section, middle);
  }

  lemma ReplacedBy(lines: seq<string>, start: nat, last: nat, section: string, middle: seq<string>)
    requires start <= last < |lines| && Join(middle) in {section, section + "\n", section + "\r\n"}
    requires EndsLine(section) || section == "" ==> Join(middle) == section
    requires section != "" ==> middle != [] && (last + 1 < |lines| ==> EndsLine(middle[|middle| - 1]))
    ensures Replaced(lines, start, last, section, lines[..start] + middle + lines[last + 1..])
  {
    hide Join, EndsLine;
    AroundParts(lines[..start], middle, lines[last + 1..]);
  }

  lemma AroundParts(a: seq<string>, b: seq<string>, c: seq<string>)
    ensures var all := a + b + c;
            && |all| - |c| == |a| + |b|
            && all[..|a|] == a && all[|a| + |b|..] == c && all[|a|..|a| + |b|] == b
            && (b != [] ==> all[|a| + |b| - 1] == b[|b| - 1])
  {
  }

  lemma TerminatedEnds(lines: seq<string>, start: nat, last: nat, section: string)
    requires start <= last < |lines|
    ensures var body := Terminated(lines, start, last, section);
            && body in {section, section + "\n", section + "\r\n"} && (body == "" <==> section == "")
            && (EndsLine(section) || section == "" ==> body == section)
            && (section != "" && last + 1 < |lines| ==> EndsLine(body))
  {
  }

  lemma BodyEnds(body: string)
    ensures var lines := SourceLines(body);
            if body == "" then lines == [] else lines != [] && (EndsLine(lines[|lines| - 1]) <==> EndsLine(body))
  {
    if body != "" { SourceEnds(body); }
  }

  lemma ProperAround(lines: seq<string>, start: nat, end: nat, middle: seq<string>)
    requires Proper(lines) && Proper(middle) && start < end <= |lines|
    requires middle != [] && end < |lines| ==> EndsLine(middle[|middle| - 1])
    ensures Proper(lines[..start] + middle + lines[end..])
  {
    hide IsLine, EndsLine;
  }

  lemma JoinAround(a: seq<string>, b: seq<string>, c: seq<string>)
    ensures Join(a + b + c) == Join(a) + Join(b) + Join(c)
  {
    hide Join;
    JoinAppend(a, b);
    JoinAppend(a + b, c);
  }

  lemma {:induction false} CandidatesOnly(sections: seq<Section>, title: string, line: Option<nat>)
    ensures forall s :: s in Candidates(sections, title, line) <==> s in sections && Named(s, title, line)
    ensures forall k :: 0 <= k < |sections| && Candidates(sections, title, line) == [sections[k]] ==>
              forall j :: 0 <= j < |sections| && Named(sections[j], title, line) ==> sections[j] == sections[k]
  {
    if sections != [] {
      CandidatesOnly(sections[1..], title, line);
      assert sections == [sections[0]] + sections[1..];
    }
  }

  /** Putting lines back unchanged gives the configuration itself. */
  lemma PutBack(text: string, start: nat, end: nat)
    requires start < end <= |SourceLines(text)|
    ensures Rewrite(start, end - 1, text, Join(SourceLines(text)[start..end])) == Some(text)
  {
    var lines := SourceLines(text);
    SourceProper(text);
    LineJoinEnds(lines, start, end);
    JoinThree(lines, start, end);
    JoinSource(text);
    hide Join, SourceLines, Proper;
  }

  /** Lines of a text end it like the last of them, so nothing is to be added. */
  lemma LineJoinEnds(lines: seq<string>, start: nat, end: nat)
    requires Proper(lines) && start < end <= |lines|
    ensures Terminated(lines, start, end - 1, Join(lines[start..end])) == Join(lines[start..end])
  {
    var middle := lines[start..end];
    assert forall k :: 0 <= k < |middle| ==> middle[k] == lines[start + k] && IsLine(lines[start + k]);
    JoinEnds(middle);
    assert middle[|middle| - 1] == lines[end - 1];
    hide Join;
  }

  lemma JoinThree(lines: seq<string>, start: nat, end: nat)
    requires start <= end <= |lines|
    ensures Join(lines) == Join(lines[..start]) + Join(lines[start..end]) + Join(lines[end..])
  {
    hide Join;
    var a, b, c := lines[..start], lines[start..end], lines[end..];
    assert lines[..end] == a + b;
    assert lines == lines[..end] + c;
    JoinAppend(lines[..end], c);
    JoinAppend(a, b);
  }

  /** What is extracted is the text of the one section that has the name, and putting it back
      unchanged gives the configuration itself. */
  lemma ExtractRewrite(text: string, title: string, line: Option<nat>)
    requires GetSection(text, title, line).Some?
    ensures var e := GetSection(text, title, line).value;
            && Rewrite(e.start, e.last, text, e.text) == Some(text)
            && var lines := SourceLines(text);
               exists s :: s in SectionsOf(lines) && Named(s, title, line) && s.start == e.start && s.end == e.last + 1
                        && s.end <= |lines| && e.text == SectionText(s, lines)
  {
    hide SectionsOf, Candidates, Named, Rewrite, SourceLines;
    var lines := SourceLines(text);
    var found := Candidates(SectionsOf(lines), title, line);
    CandidatesOnly(SectionsOf(lines), title, line);
    assert found[0] in found;
    PutBack(text, found[0].start, found[0].end);
  }

  /** A text ends like its last line. */
  lemma {:induction false} JoinEnds(lines: seq<string>)
    requires lines != [] && forall k :: 0 <= k < |lines| ==> lines[k] != ""
    ensures Join(lines) != "" && (EndsLine(Join(lines)) <==> EndsLine(lines[|lines| - 1]))
  {
    if |lines| > 1 { JoinEnds(lines[1..]); }
  }

  /** An ambiguous or unknown name is refused, and only such a one. */
  lemma RefusedIff(text: string, title: string, line: Option<nat>)
    ensures GetSection(text, title, line).Some? <==>
              |Candidates(SectionsOf(SourceLines(text)), title, line)| == 1
  {
    hide SectionsOf, Candidates, Named;
    var lines := SourceLines(text);
    var found := Candidates(SectionsOf(lines), title, line);
    if |found| == 1 {
      CandidatesOnly(SectionsOf(lines), title, line);
      SectionsPartition(lines);
      assert found[0] in found;
      var k :| 0 <= k < |SectionsOf(lines)| && SectionsOf(lines)[k] == found[0];
    }
  }

  // ---------------------------------------------------------------------------------------
  // Rewriting the body of a section
  // ---------------------------------------------------------------------------------------

  /** Neither a section keyword nor a managed marker. */
  predicate Neutral(line: string) {
    Classify(line).Comment? || Classify(line).Plain?
  }

  lemma {:induction false} ScanSplit(a: seq<string>, b: seq<string>, base: nat, pending: Pending)
    ensures Scan(a + b, base, pending) == Scan(a, base, pending) + Scan(b, base + |a|, Waiting(a, base, pending))
  {
    hide Classify, Begin, Identity;
    if a == [] {
      assert a + b == b;
    } else {
      assert (a + b)[0] == a[0] && (a + b)[1..] == a[1..] + b;
      var tail := match Classify(a[0])
        case Marker(managed) => At(base, managed)
        case Comment => pending
        case _ => Nothing;
      ScanSplit(a[1..], b, base + 1, tail);
    }
  }

  lemma {:induction false} WaitingBefore(lines: seq<string>, base: nat, pending: Pending)
    requires pending.At? ==> pending.index < base
    ensures var w := Waiting(lines, base, pending); w.At? ==> w.index < base + |lines|
    ensures lines != [] && Classify(lines[|lines| - 1]).Header? ==> Waiting(lines, base, pending) == Nothing
  {
    hide Classify;
    if lines != [] {
      var tail := match Classify(lines[0])
        case Marker(managed) => At(base, managed)
        case Comment => pending
        case _ => Nothing;
      WaitingBefore(lines[1..], base + 1, tail);
    }
  }

  lemma {:induction false} NeutralScan(lines: seq<string>, base: nat)
    requires forall k :: 0 <= k < |lines| ==> Neutral(lines[k])
    ensures Scan(lines, base, Nothing) == [] && Waiting(lines, base, Nothing) == Nothing
  {
    hide Classify;
    if lines != [] { NeutralScan(lines[1..], base + 1); }
  }

  /** The header lines of the sections that a scan finds. */
  lemma {:induction false} ScanHeaders(lines: seq<string>, base: nat, pending: Pending, k: nat)
    requires k < |Scan(lines, base, pending)|
    ensures var h := Scan(lines, base, pending)[k].header;
              base <= h < base + |lines| && Classify(lines[h - base]).Header?
  {
    hide Classify, Begin, Identity;
    match Classify(lines[0])
    case Marker(managed) => ScanHeaders(lines[1..], base + 1, At(base, managed), k);
    case Comment => ScanHeaders(lines[1..], base + 1, pending, k);
    case Plain => ScanHeaders(lines[1..], base + 1, Nothing, k);
    case Header(_, _, _) => if k > 0 { ScanHeaders(lines[1..], base + 1, Nothing, k - 1); }
  }

  /** The same sections, seen from other line numbers. */
  predicate Moved(a: seq<Section>, b: seq<Section>, from: nat, to: nat) {
    && |a| == |b|
    && forall k :: 0 <= k < |a| ==>
         && b[k] == a[k].(start := b[k].start, header := b[k].header)
         && b[k].start - to == a[k].start - from && b[k].header - to == a[k].header - from
  }

  lemma {:induction false} ScanMoved(lines: seq<string>, from: nat, to: nat, p: Pending, q: Pending)
    requires (p.Nothing? && q.Nothing?) || (p.At? && q.At? && p.managed == q.managed && p.index - from == q.index - to)
    ensures Moved(Scan(lines, from, p), Scan(lines, to, q), from, to)
  {
    hide Classify, Identity;
    if lines != [] {
      match Classify(lines[0])
      case Marker(managed) => ScanMoved(lines[1..], from + 1, to + 1, At(from, managed), At(to, managed));
      case Comment => ScanMoved(lines[1..], from + 1, to + 1, p, q);
      case Plain => ScanMoved(lines[1..], from + 1, to + 1, Nothing, Nothing);
      case Header(_, _, _) => ScanMoved(lines[1..], from + 1, to + 1, Nothing, Nothing);
    }
  }

  /** A section that begins on the first line does not depend on what was before. */
  lemma FreshStart(lines: seq<string>, base: nat, pending: Pending)
    requires lines != [] && (pending.At? ==> pending.index < base)
    requires Scan(lines, base, pending) != [] && Scan(lines, base, pending)[0].start == base
    ensures Scan(lines, base, pending) == Scan(lines, base, Nothing)
  {
    hide Classify, Identity;
    match Classify(lines[0])
    case Marker(_) =>
    case Header(_, _, _) =>
    case Comment => ScanOrder(lines[1..], base + 1, pending);
    case Plain => ScanOrder(lines[1..], base + 1, Nothing);
  }

  /** Everything but the section k is as it was; that one keeps its title. */
  predicate OthersKept(lines: seq<string>, lines': seq<string>, k: nat) {
    var a, b := SectionsOf(lines), SectionsOf(lines');
    && |a| == |b| && k < |a|
    && forall j :: 0 <= j < |a| ==>
         && b[j].title == a[j].title && b[j].kind == a[j].kind && b[j].name == a[j].name
         && a[j].start <= a[j].end <= |lines| && b[j].start <= b[j].end <= |lines'|
         && (j != k ==> lines'[b[j].start..b[j].end] == lines[a[j].start..a[j].end])
  }

  /** Replacing the lines behind the header of section k by neutral lines. */
  function Spliced(lines: seq<string>, s: Section, body: seq<string>): seq<string>
    requires s.header < s.end <= |lines|
  {
    lines[..s.header + 1] + body + lines[s.end..]
  }

  /** How the scan stands at the header line h of section number `at`, and at its end: the sections
      up to this one are found in the lines up to h, none in the body, the others from the end on. */
  predicate Stands(lines: seq<string>, h: nat, end: nat, at: nat) {
    && h < end <= |lines|
    && var head, tail := Scan(lines[..h + 1], 0, Nothing), Scan(lines[end..], end, Nothing);
       && Scan(lines, 0, Nothing) == head + tail
       && Waiting(lines[..h + 1], 0, Nothing) == Nothing
       && |head| == at + 1 && (end < |lines| ==> tail != [] && tail[0].start == end)
  }

  /** A section that is not the preamble is one of those that the scan found. */
  lemma StartOf(lines: seq<string>, k: nat)
    requires k < |SectionsOf(lines)| && SectionsOf(lines)[k].kind != "preamble"
    ensures var starts, s := Scan(lines, 0, Nothing), SectionsOf(lines)[k];
            var at := k - (|SectionsOf(lines)| - |starts|);
            && 0 <= at < |starts| && s == starts[at].(end := s.end)
            && s.end == if at + 1 < |starts| then starts[at + 1].start else |lines|
  {
    hide Scan;
  }

  lemma BodyScan(lines: seq<string>, at: nat, end: nat)
    requires at < |Scan(lines, 0, Nothing)|
    requires var starts := Scan(lines, 0, Nothing);
             starts[at].header < end <= |lines| && end == if at + 1 < |starts| then starts[at + 1].start else |lines|
    ensures Stands(lines, Scan(lines, 0, Nothing)[at].header, end, at)
  {
    hide Scan, Waiting, Classify, Ordered;
    var starts := Scan(lines, 0, Nothing);
    var h := starts[at].header;
    var upTo, body, rest := lines[..h + 1], lines[h + 1..end], lines[end..];
    HeaderWaits(lines, at);
    var w := Cut(lines, h, end);
    var head, inner, tail := Scan(upTo, 0, Nothing), Scan(body, h + 1, Nothing), Scan(rest, end, w);
    ScanOrder(lines, 0, Nothing);
    ScanOrder(upTo, 0, Nothing);
    ScanOrder(body, h + 1, Nothing);
    ScanOrder(rest, end, w);
    NothingInside(starts, head, inner, tail, at, h, end, |lines|);
    if end < |lines| {
      FreshStart(rest, end, w);
    } else {
      assert rest == [];
      EmptyScan(end, w);
    }
  }

  lemma HeaderWaits(lines: seq<string>, at: nat)
    requires at < |Scan(lines, 0, Nothing)|
    ensures var h := Scan(lines, 0, Nothing)[at].header; h < |lines| && Waiting(lines[..h + 1], 0, Nothing) == Nothing
  {
    hide Scan, Waiting, Classify;
    ScanHeaders(lines, 0, Nothing, at);
    var h := Scan(lines, 0, Nothing)[at].header;
    assert lines[..h + 1][h] == lines[h];
    WaitingBefore(lines[..h + 1], 0, Nothing);
  }

  lemma Cut(lines: seq<string>, h: nat, end: nat) returns (w: Pending)
    requires h < end <= |lines| && Waiting(lines[..h + 1], 0, Nothing) == Nothing
    ensures w.At? ==> w.index < end
    ensures Scan(lines, 0, Nothing) ==
              Scan(lines[..h + 1], 0, Nothing) + (Scan(lines[h + 1..end], h + 1, Nothing) + Scan(lines[end..], end, w))
  {
    hide Scan, Waiting, Classify;
    var upTo, body, rest := lines[..h + 1], lines[h + 1..end], lines[end..];
    w := Waiting(body, h + 1, Nothing);
    WaitingBefore(body, h + 1, Nothing);
    assert lines == upTo + (body + rest);
    ScanSplit(upTo, body + rest, 0, Nothing);
    ScanSplit(body, rest, h + 1, Nothing);
  }

  lemma NothingInside(starts: seq<Section>, head: seq<Section>, inner: seq<Section>, tail: seq<Section>, at: nat,
                      h: nat,
                      end: nat, high: nat)
    requires starts == head + (inner + tail) && Ordered(starts, 0, high) && at < |starts| && starts[at].header == h
    requires Ordered(head, 0, h + 1) && Ordered(inner, h + 1, end) && Ordered(tail, end, high)
    requires end == if at + 1 < |starts| then starts[at + 1].start else high
    ensures inner == [] && |head| == at + 1 && (end < high ==> tail != [] && tail[0].start == end)
  {
    assert forall i :: 0 <= i < |head| ==> starts[i] == head[i];
    assert starts[|head|..] == inner + tail;
    assert forall i :: 0 <= i < |tail| ==> starts[|head| + |inner| + i] == tail[i];
    assert at < |head|;
  }

  lemma EmptyScan(base: nat, w: Pending)
    ensures Scan([], base, w) == [] && Scan([], base, Nothing) == []
  {
  }

  /** Behind a section, the sections are the same wherever it now ends. */
  lemma SplicedScan(lines: seq<string>, at: nat, h: nat, end: nat, body: seq<string>) returns (tail': seq<Section>)
    requires Stands(lines, h, end, at) && forall i :: 0 <= i < |body| ==> Neutral(body[i])
    ensures Scan(lines[..h + 1] + body + lines[end..], 0, Nothing) == Scan(lines[..h + 1], 0, Nothing) + tail'
    ensures Moved(Scan(lines[end..], end, Nothing), tail', end, h + 1 + |body|)
  {
    hide Scan, Waiting, Neutral, Moved;
    var upTo, rest := lines[..h + 1], lines[end..];
    assert Waiting(upTo, 0, Nothing) == Nothing;
    hide Stands;
    var now := h + 1 + |body|;
    ScanSplit(upTo, body + rest, 0, Nothing);
    ScanSplit(body, rest, h + 1, Nothing);
    NeutralScan(body, h + 1);
    ScanMoved(rest, end, now, Nothing, Nothing);
    assert upTo + body + rest == upTo + (body + rest);
    tail' := Scan(rest, now, Nothing);
    assert [] + tail' == tail';
  }

  lemma {:induction false} PartitionRises(sections: seq<Section>, lines: seq<string>, i: nat, j: nat)
    requires Partition(sections, lines) && i < j < |sections|
    ensures sections[i].end <= sections[j].start
    decreases j - i
  {
    if i + 1 < j { PartitionRises(sections, lines, i, j - 1); }
  }

  /** The sections of the spliced configuration: up to k they begin where they did, and behind it
      they and their ends are moved. */
  predicate Respliced(a: seq<Section>, b: seq<Section>, k: nat, end: nat, now: nat) {
    && |a| == |b| && k < |a|
    && (forall j :: 0 <= j < |a| ==> b[j].title == a[j].title && b[j].kind == a[j].kind && b[j].name == a[j].name)
    && (forall j :: 0 <= j < k ==> b[j] == a[j])
    && b[k].start == a[k].start && b[k].header == a[k].header && b[k].end == now && a[k].end == end
    && forall j :: k < j < |a| ==> b[j].start - now == a[j].start - end && b[j].end - now == a[j].end - end
  }

  lemma ClosedRespliced(pre: seq<Section>, head: seq<Section>, tail: seq<Section>, tail': seq<Section>, count: nat,
                        count': nat,
                        end: nat, now: nat)
    requires head != [] && Moved(tail, tail', end, now) && count' - now == count - end
    requires (tail != [] ==> tail[0].start == end) && (tail == [] ==> count == end)
    ensures Respliced(Closed(pre + (head + tail), count), Closed(pre + (head + tail'), count'), |pre| + |head| - 1,
              end, now)
  {
    var w, w' := pre + (head + tail), pre + (head + tail');
    var first := |pre| + |head|;
    assert forall j :: 0 <= j < first ==> w'[j] == w[j];
    forall j | first <= j < |w| ensures w[j] == tail[j - first] && w'[j] == tail'[j - first] {
      assert (head + tail)[j - |pre|] == tail[j - first];
    }
    CloseMoved(w, w', first, count, count', end, now);
  }

  lemma CloseMoved(w: seq<Section>, w': seq<Section>, first: nat, count: nat, count': nat, end: nat, now: nat)
    requires 0 < first <= |w| == |w'| && count' - now == count - end
    requires forall j :: 0 <= j < first ==> w'[j] == w[j]
    requires forall j :: first <= j < |w| ==>
               && w'[j] == w[j].(start := w'[j].start, header := w'[j].header) && w'[j].start - now == w[j].start - end
    requires if first < |w| then w[first].start == end else count == end
    ensures Respliced(Closed(w, count), Closed(w', count'), first - 1, end, now)
  {
    var a, b := Closed(w, count), Closed(w', count');
    forall j | first <= j < |a| ensures b[j].start - now == a[j].start - end && b[j].end - now == a[j].end - end {
      assert j + 1 < |w| ==> w'[j + 1].start - now == w[j + 1].start - end;
    }
  }

  lemma SplicedSections(lines: seq<string>, k: nat, body: seq<string>)
    requires k < |SectionsOf(lines)| && SectionsOf(lines)[k].kind != "preamble"
    requires SectionsOf(lines)[k].header < SectionsOf(lines)[k].end <= |lines|
    requires forall i :: 0 <= i < |body| ==> Neutral(body[i])
    ensures var s := SectionsOf(lines)[k];
            Respliced(SectionsOf(lines), SectionsOf(Spliced(lines, s, body)), k, s.end, s.header + 1 + |body|)
  {
    hide Scan, Waiting, Classify, Closed, Respliced, Moved;
    var s := SectionsOf(lines)[k];
    var starts := Scan(lines, 0, Nothing);
    var at := k - (|SectionsOf(lines)| - |starts|);
    StartOf(lines, k);
    BodyScan(lines, at, s.end);
    var tail' := SplicedScan(lines, at, s.header, s.end, body);
    var lines' := Spliced(lines, s, body);
    assert lines' == lines[..s.header + 1] + body + lines[s.end..];
    if s.end == |lines| { EmptyTail(lines, s.end); }
    var head, tail := Scan(lines[..s.header + 1], 0, Nothing), Scan(lines[s.end..], s.end, Nothing);
    hide Stands, Spliced;
    StartsRespliced(head, tail, tail', |lines|, |lines'|, s.end, s.header + 1 + |body|);
  }

  lemma StartsRespliced(head: seq<Section>, tail: seq<Section>, tail': seq<Section>, count: nat, count': nat,
                        end: nat, now: nat)
    requires head != [] && Moved(tail, tail', end, now) && count' - now == count - end && now > 0 && end > 0
    requires end <= count && (tail != [] ==> tail[0].start == end) && (tail == [] ==> count == end)
    ensures var a, b := WithPreamble(head + tail, count), WithPreamble(head + tail', count');
            |a| >= |head + tail| && Respliced(Closed(a, count), Closed(b, count'), |head| - 1 + (|a| - |head + tail|),
                end, now)
  {
    hide Moved, Closed, Respliced;
    var pre := if head[0].start != 0 then [Section(0, 0, 0, "", "preamble", "")] else [];
    assert (head + tail)[0] == head[0] && (head + tail')[0] == head[0];
    assert WithPreamble(head + tail, count) == pre + (head + tail);
    assert WithPreamble(head + tail', count') == pre + (head + tail');
    ClosedRespliced(pre, head, tail, tail', count, count', end, now);
  }

  lemma EmptyTail(lines: seq<string>, end: nat)
    requires end == |lines|
    ensures Scan(lines[end..], end, Nothing) == []
  {
    assert lines[end..] == [];
  }

  /** The lines of the other sections are untouched. */
  lemma SplicedOthers(lines: seq<string>, k: nat, body: seq<string>)
    requires k < |SectionsOf(lines)| && SectionsOf(lines)[k].kind != "preamble"
    requires SectionsOf(lines)[k].header < SectionsOf(lines)[k].end <= |lines|
    requires forall i :: 0 <= i < |body| ==> Neutral(body[i])
    ensures OthersKept(lines, Spliced(lines, SectionsOf(lines)[k], body), k)
  {
    hide SectionsOf, Neutral, Spliced;
    var a, s := SectionsOf(lines), SectionsOf(lines)[k];
    var lines' := Spliced(lines, s, body);
    var b := SectionsOf(lines');
    SplicedSections(lines, k, body);
    SectionsPartition(lines);
    SectionsPartition(lines');
    forall j | 0 <= j < |a| && j != k ensures lines'[b[j].start..b[j].end] == lines[a[j].start..a[j].end] {
      if j < k {
        PartitionRises(a, lines, j, k);
        SplicedBefore(lines, s, body, a[j].start, a[j].end);
      } else {
        PartitionRises(a, lines, k, j);
        SplicedBehind(lines, s, body, a[j].start, a[j].end, b[j].start, b[j].end);
      }
    }
  }

  lemma SplicedBefore(lines: seq<string>, s: Section, body: seq<string>, i: nat, j: nat)
    requires i <= j <= s.header < s.end <= |lines|
    ensures Spliced(lines, s, body)[i..j] == lines[i..j]
  {
  }

  lemma SplicedBehind(lines: seq<string>, s: Section, body: seq<string>, i: nat, j: nat, i': nat, j': nat)
    requires s.header < s.end <= i <= j <= |lines|
    requires i' - i == j' - j == s.header + 1 + |body| - s.end
    ensures i' <= j' <= |Spliced(lines, s, body)| && Spliced(lines, s, body)[i'..j'] == lines[i..j]
  {
    var now := s.header + 1 + |body|;
    var rest := lines[s.end..];
    assert Spliced(lines, s, body)[now..] == rest;
    assert rest[i - s.end..j - s.end] == lines[i..j];
    assert Spliced(lines, s, body)[i'..j'] == Spliced(lines, s, body)[now..][i' - now..j' - now];
  }

  // ---------------------------------------------------------------------------------------
  // ... as the editor does it
  // ---------------------------------------------------------------------------------------

  lemma RStripMore(line: string, c: char)
    requires IsSpace(c)
    ensures RStrip(line + [c]) == RStrip(line)
  {
    assert (line + [c])[..|line|] == line;
  }

  lemma StripNewline(line: string, newline: string)
    requires newline in {"\n", "\r\n"}
    ensures Strip(line + newline) == Strip(line)
  {
    if newline == "\n" {
      RStripMore(line, '\n');
    } else {
      RStripMore(line, '\r');
      RStripMore(line + "\r", '\n');
      assert line + newline == line + "\r" + "\n";
    }
  }

  /** The lines with the last one ended as it should be. */
  function Ended(lines: seq<string>, newline: string): seq<string>
    requires lines != []
  {
    lines[..|lines| - 1] + [lines[|lines| - 1] + newline]
  }

  lemma EndedProper(lines: seq<string>, newline: string)
    requires lines != [] && Proper(lines) && !EndsLine(lines[|lines| - 1]) && newline in {"\n", "\r\n"}
    ensures Proper(Ended(lines, newline)) && EndsLine(Ended(lines, newline)[|lines| - 1])
    ensures Join(Ended(lines, newline)) == Join(lines) + newline
  {
    hide Join, IsLine, EndsLine, Proper;
    var last := lines[|lines| - 1];
    LastLine(lines);
    EndedLine(last, newline);
    ProperReplaced(lines, last + newline);
    LastJoin(lines[..|lines| - 1], last, newline);
    assert lines == lines[..|lines| - 1] + [last];
  }

  lemma LastLine(lines: seq<string>)
    requires lines != [] && Proper(lines)
    ensures IsLine(lines[|lines| - 1])
  {
  }

  lemma ProperReplaced(lines: seq<string>, line: string)
    requires lines != [] && Proper(lines) && IsLine(line)
    ensures Proper(lines[..|lines| - 1] + [line])
  {
    hide IsLine, EndsLine;
  }

  lemma EndedLine(line: string, newline: string)
    requires IsLine(line) && !EndsLine(line) && newline in {"\n", "\r\n"}
    ensures IsLine(line + newline) && EndsLine(line + newline)
  {
    var more := line + newline;
    assert forall i :: 0 <= i < |line| ==> more[i] == line[i] && line[i] != '\n';
    assert newline == "\r\n" ==> more[|line|] == '\r';
    assert more[|more| - 1] == '\n';
  }

  lemma LastJoin(lines: seq<string>, last: string, newline: string)
    ensures Join(lines + [last + newline]) == Join(lines + [last]) + newline
  {
    JoinAppend(lines, [last]);
    JoinAppend(lines, [last + newline]);
    SingleJoin(last);
    SingleJoin(last + newline);
    hide Join;
  }

  lemma SingleJoin(line: string)
    ensures Join([line]) == line
  {
    assert [line][1..] == [];
  }

  lemma SourceEnds(body: string)
    requires body != ""
    ensures var lines := SourceLines(body);
            lines != [] && Proper(lines) && Join(lines) == body && (EndsLine(lines[|lines| - 1]) <==> EndsLine(body))
  {
    var lines := SourceLines(body);
    SourceProper(body);
    JoinSource(body);
    assert forall i :: 0 <= i < |lines| ==> IsLine(lines[i]);
    JoinEnds(lines);
  }

  /** The lines that a body becomes. */
  lemma BodyLines(body: string, newline: string, add: bool) returns (lines: seq<string>)
    requires newline in {"\n", "\r\n"} && (add ==> body != "" && !EndsLine(body))
    requires forall i :: 0 <= i < |SourceLines(body)| ==> Neutral(SourceLines(body)[i])
    ensures Proper(lines) && Join(lines) == body + if add then newline else ""
    ensures forall i :: 0 <= i < |lines| ==> Neutral(lines[i])
    ensures add ==> lines != [] && EndsLine(lines[|lines| - 1])
    ensures lines == [] <==> body == ""
    ensures !add && lines != [] ==> (EndsLine(lines[|lines| - 1]) <==> EndsLine(body))
  {
    hide Join, Proper, Neutral;
    lines := SourceLines(body);
    if body != "" {
      SourceEnds(body);
      hide SourceLines;
      if add { lines := EndedNeutral(lines, newline); }
    } else {
      NoLines();
    }
  }

  lemma NoLines()
    ensures SourceLines("") == [] && Proper([]) && Join([]) == ""
  {
  }

  lemma EndedNeutral(lines: seq<string>, newline: string) returns (more: seq<string>)
    requires lines != [] && Proper(lines) && !EndsLine(lines[|lines| - 1]) && newline in {"\n", "\r\n"}
    requires forall i :: 0 <= i < |lines| ==> Neutral(lines[i])
    ensures Proper(more) && Join(more) == Join(lines) + newline && more != [] && EndsLine(more[|more| - 1])
    ensures forall i :: 0 <= i < |more| ==> Neutral(more[i])
  {
    hide Join, Proper, EndsLine, Strip;
    more := Ended(lines, newline);
    EndedProper(lines, newline);
    NeutralLine(lines[|lines| - 1], newline);
  }

  lemma NeutralLine(line: string, newline: string)
    requires newline in {"\n", "\r\n"}
    ensures Neutral(line + newline) <==> Neutral(line)
  {
    hide Strip;
    StripNewline(line, newline);
  }

  /** The editor adds the newline that the body needs. */
  lemma KeptTerminated(text: string, s: Section, body: string)
    requires s.start <= s.header < s.end <= |SourceLines(text)|
    requires body == "" || EndsLine(SourceLines(text)[s.header])
    ensures var lines := SourceLines(text);
            var newline := if EndsWith(lines[s.start], "\r\n") then "\r\n" else "\n";
            var add := body != "" && !EndsLine(body) && (s.end < |lines| || EndsLine(lines[s.end - 1]));
            Terminated(lines, s.start, s.end - 1, Join(lines[s.start..s.header + 1]) + body)
              == Join(lines[s.start..s.header + 1]) + (body + if add then newline else "")
  {
    var lines := SourceLines(text);
    var kept := lines[s.start..s.header + 1];
    SourceProper(text);
    KeptEnds(lines, s.start, s.header + 1);
    hide Join, SourceLines, Proper;
    if body == "" { assert Join(kept) + body == Join(kept); }
  }

  lemma KeptEnds(lines: seq<string>, start: nat, end: nat)
    requires Proper(lines) && start < end <= |lines|
    ensures Join(lines[start..end]) != ""
    ensures EndsLine(Join(lines[start..end])) <==> EndsLine(lines[end - 1])
    ensures end < |lines| ==> EndsLine(lines[end - 1])
  {
    var kept := lines[start..end];
    assert forall i :: 0 <= i < |kept| ==> kept[i] == lines[start + i] && IsLine(lines[start + i]);
    JoinEnds(kept);
    assert kept[|kept| - 1] == lines[end - 1];
  }

  lemma SplicedProper(text: string, s: Section, body: seq<string>)
    requires s.header < s.end <= |SourceLines(text)| && Proper(body)
    requires body == [] || EndsLine(SourceLines(text)[s.header])
    requires s.end < |SourceLines(text)| ==> body == [] || EndsLine(body[|body| - 1])
    ensures Proper(Spliced(SourceLines(text), s, body))
  {
    SourceProper(text);
    hide SourceLines;
  }

  lemma JoinSpliced(lines: seq<string>, s: Section, body: seq<string>)
    requires s.start <= s.header < s.end <= |lines|
    ensures Join(Spliced(lines, s, body)) ==
              Join(lines[..s.start]) + (Join(lines[s.start..s.header + 1]) + Join(body)) + Join(lines[s.end..])
  {
    hide Join;
    var a, b, c := lines[..s.start], lines[s.start..s.header + 1], lines[s.end..];
    JoinAppend(b, body);
    JoinAppend(a, b + body);
    JoinAppend(a + (b + body), c);
    assert Spliced(lines, s, body) == a + (b + body) + c;
  }

  /** Rewriting the lines behind the header of a section with lines that hold neither a keyword nor
      a marker: every other section keeps its title and its text, and this one its title. */
  lemma RewriteBody(text: string, k: nat, body: string)
    requires var lines := SourceLines(text);
             && k < |SectionsOf(lines)| && SectionsOf(lines)[k].kind != "preamble"
             && SectionsOf(lines)[k].start <= SectionsOf(lines)[k].header < SectionsOf(lines)[k].end <= |lines|
             && (body == "" || EndsLine(lines[SectionsOf(lines)[k].header]))
    requires forall i :: 0 <= i < |SourceLines(body)| ==> Neutral(SourceLines(body)[i])
    ensures var lines, s := SourceLines(text), SectionsOf(SourceLines(text))[k];
            var r := Rewrite(s.start, s.end - 1, text, Join(lines[s.start..s.header + 1]) + body);
            r.Some? && OthersKept(lines, SourceLines(r.value), k)
  {
    hide SectionsOf, Neutral, SourceLines, Join, Proper, OthersKept;
    var lines := SourceLines(text);
    var s := SectionsOf(lines)[k];
    var kept := lines[s.start..s.header + 1];
    var section := Join(kept) + body;
    var newline := if EndsWith(lines[s.start], "\r\n") then "\r\n" else "\n";
    var add := body != "" && !EndsLine(body) && (s.end < |lines| || EndsLine(lines[s.end - 1]));
    var more := BodyLines(body, newline, add);
    KeptTerminated(text, s, body);
    SplicedProper(text, s, more);
    JoinSpliced(lines, s, more);
    SourceOfJoin(Spliced(lines, s, more));
    SplicedOthers(lines, k, more);
  }
}
