/** The bounded, stateless log reader (app/scripts/log_reader.py, record format 'lines').

    Every call opens the listed files, resumes each from the byte position in the caller's cursor,
    returns complete lines within a byte and a record budget, and hands out a new cursor. */
module LogCursor {
  import opened Outcomes
  import opened Bytes
  import opened LogLines

  const SNAPSHOT_BYTES: nat := 4 * 1024 * 1024
  const FOLLOW_BYTES: nat := 256 * 1024
  const MAX_FILES: nat := 16
  const MAX_INITIAL_RECORDS: nat := 10000

  type Inode = nat

  /** An anchor is the digest of the bytes before the offset; digests are injective. */
  datatype Position = Position(offset: nat, size: nat, anchor: Bytes, dropping: bool)

  datatype Cursor = Cursor(files: map<Inode, Position>, active: Option<Inode>)

  /** A listed file: it cannot be opened under its name any more, another file is found there, or
      it is read, with `content` when it is opened and `later` when its anchors are rechecked. */
  datatype Found = Missing | Other | Stream(content: Bytes, later: Bytes)

  datatype Entry = Entry(inode: Inode, found: Found)

  /** The up to 64 bytes before the offset, as far as the file has them. */
  function Anchor(content: Bytes, offset: nat): Bytes {
    var low := if offset > 64 then offset - 64 else 0;
    if low >= |content| then [] else content[low..if offset < |content| then offset else |content|]
  }

  /** The position that a file resumes from, if any. A file that is new while the active file is
      the same may be a copy of it, made before the active file is truncated. */
  function Resumes(previous: Option<Cursor>, active: Option<Inode>, key: Inode, content: Bytes): Option<Position> {
    if previous.None? then None
    else if key in previous.value.files then Some(previous.value.files[key])
    else if active.Some? && Some(key) != active &&
            active == previous.value.active && active.value in previous.value.files then
      var original := previous.value.files[active.value];
      if original.offset > 0 && |content| >= original.offset && Anchor(content, original.offset) == original.anchor
      then Some(original) else None
    else None
  }

  predicate Fits(content: Bytes, position: Position) {
    position.offset <= |content| && Anchor(content, position.offset) == position.anchor
  }

  /** Where reading the file begins: an offset, and whether the line there is to be skipped. */
  function Start(
    previous: Option<Cursor>, active: Option<Inode>, key: Inode, content: Bytes, budget: nat
  ): (nat, bool) {
    var position := Resumes(previous, active, key, content);
    if position.Some? then
      if Fits(content, position.value) then (position.value.offset, position.value.dropping) else (0, false)
    else if previous.Some? then (0, false)
    else if Some(key) != active then (|content|, false)
    else if |content| <= budget then (0, false)
    else (|content| - budget, content[|content| - budget - 1] != NEWLINE)
  }

  /** The loop over the lines of the bytes read from one file. */
  method Frame(data: Bytes, skip: bool, limit: Option<nat>)
    returns (records: seq<Bytes>, consumed: nat, dropping: bool, limited: bool)
    requires limit == Some(0) ==> data == []
    ensures consumed <= |data|
    ensures records == Delivered(data[..consumed], skip)
    ensures Cut(data[..consumed], skip, dropping)
    ensures dropping ==> consumed == |data|
    ensures limit.Some? ==> |records| <= limit.value
    ensures limit.None? || |records| < limit.value ==> !Complete(data[consumed..]) && |data| - consumed <= MAX_LINE
    ensures limit.Some? && 0 < limit.value == |records| ==> consumed > 0
    ensures consumed == 0 <==> Unmoved(data, skip)
  {
    hide Delivered, Cut, Records, Tail;
    records, consumed, dropping, limited := [], 0, skip, false;
    var index := 0;
    NoLine([]);
    UnmovedIff(data, skip);
    assert data[..0] == [] && data[..|data|] == data;
    if skip {
      index, dropping := SkipFirst(data);
      consumed := index;
    }
    while index < |data| && limit != Some(|records|)
      invariant index == consumed <= |data|
      invariant records == Delivered(data[..index], skip) && Cut(data[..index], skip, dropping)
      invariant dropping ==> index == |data|
      invariant skip && data != [] ==> index > 0
      invariant limit.Some? ==> |records| <= limit.value && (|records| > 0 ==> index > 0)
    {
      var newline := index + Newline(data[index..]);
      if newline == |data| {
        if |data| - index > MAX_LINE {
          SkipLong(data, index, skip);
          consumed, dropping, limited := |data|, true, true;
        }
        break;
      }
      var raw := data[index..newline + 1];
      OneLine(data, index, newline, skip);
      index := newline + 1;
      consumed := index;
      if |raw| - 1 > MAX_LINE {
        limited := true;
      } else {
        records := records + [raw];
      }
    }
  }

  /** Nothing of the bytes can be consumed: they are a piece of one line that may become a record. */
  predicate Unmoved(data: Bytes, skip: bool) {
    !Complete(data) && |data| <= MAX_LINE && (skip ==> data == [])
  }

  lemma UnmovedIsShort(data: Bytes, skip: bool)
    ensures Unmoved(data, skip) ==> |data| <= MAX_LINE
  {
  }

  lemma UnmovedIff(data: Bytes, skip: bool)
    ensures Unmoved(data, skip) ==>
              forall n, dropping :: 0 <= n <= |data| && Cut(data[..n], skip, dropping) ==> n == 0
  {
    if Unmoved(data, skip) {
      forall n, dropping | 0 < n <= |data| ensures !Cut(data[..n], skip, dropping) {
        PieceUncut(data, n, dropping);
      }
    }
  }

  lemma PieceUncut(data: Bytes, n: nat, dropping: bool)
    requires !Complete(data) && |data| <= MAX_LINE && 0 < n <= |data|
    ensures !Cut(data[..n], false, dropping)
  {
    NewlineFree(data);
    NewlineFree(data[..n]);
    assert data[..n][n - 1] == data[n - 1];
    NoRecord(data[..n]);
  }

  lemma NewlineFree(s: Bytes)
    ensures !Complete(s) <==> NEWLINE !in s
  {
    if NEWLINE in s {
      var i :| 0 <= i < |s| && s[i] == NEWLINE;
    }
  }

  /** The rest of a line that is to be skipped. */
  method SkipFirst(data: Bytes) returns (index: nat, dropping: bool)
    ensures 0 <= index <= |data| && (data != [] ==> index > 0) && (dropping ==> index == |data|)
    ensures Delivered(data[..index], true) == [] && Cut(data[..index], true, dropping)
  {
    hide Delivered, Cut, Records, Tail;
    var newline := Newline(data);
    index, dropping := if newline == |data| then |data| else newline + 1, newline == |data|;
    assert data[..|data|] == data;
    if Complete(data) { SingleLine(data); } else { NoLine(data); }
  }

  lemma NoLine(data: Bytes)
    requires !Complete(data)
    ensures Delivered(data, true) == [] && Cut(data, true, true)
    ensures Delivered([], false) == [] && Cut([], false, false) && !Complete([])
  {
  }

  lemma SingleLine(data: Bytes)
    requires Complete(data)
    ensures var line := data[..Newline(data) + 1];
            && Delivered(line, false) == (if |line| - 1 <= MAX_LINE then [line] else [])
            && Delivered(line, true) == []
            && Cut(line, false, false) && Cut(line, true, false)
  {
    hide Newline, Records, Tail, After, Delivered, Cut;
    LineAlone(data);
    RecordAlone(data[..Newline(data) + 1]);
  }

  lemma RecordAlone(line: Bytes)
    requires Newline(line) + 1 == |line| && line[Newline(line)] == NEWLINE
    ensures Delivered(line, false) == (if |line| - 1 <= MAX_LINE then [line] else []) && Delivered(line, true) == []
    ensures Cut(line, false, false) && Cut(line, true, false)
  {
    hide Newline, Records, Tail;
    FirstRecord(line);
    NoRecord([]);
    assert line[..|line|] == line && line[|line|..] == [];
  }

  lemma LineAlone(data: Bytes)
    requires Complete(data)
    ensures var n := Newline(data);
            var line := data[..n + 1];
            Newline(line) == n && |line| == n + 1 && line[n] == NEWLINE
  {
    var n := Newline(data);
    var line := data[..n + 1];
    assert line[n] == NEWLINE && forall i :: 0 <= i < n ==> line[i] == data[i];
    NewlineIs(line, n);
  }

  lemma OneLine(data: Bytes, index: nat, newline: nat, skip: bool)
    requires index <= newline < |data| && newline == index + Newline(data[index..])
    requires Cut(data[..index], skip, false)
    ensures var raw := data[index..newline + 1];
            && Delivered(data[..newline + 1], skip) ==
                 Delivered(data[..index], skip) + (if |raw| - 1 <= MAX_LINE then [raw] else [])
            && Cut(data[..newline + 1], skip, false)
  {
    hide Records, Tail, Delivered, Cut;
    var raw := data[index..newline + 1];
    assert data[..index] + raw == data[..newline + 1];
    ToEnd(data, index);
    Slice(data, index, |data|, 0, newline - index + 1);
    SingleLine(data[index..]);
    ReadOn(data[..index], raw, skip, false, false);
  }

  lemma ToEnd(s: Bytes, i: nat)
    requires i <= |s|
    ensures s[i..] == s[i..|s|]
  {
  }

  lemma SkipLong(data: Bytes, index: nat, skip: bool)
    requires index <= |data| && !Complete(data[index..]) && |data| - index > MAX_LINE
    requires Cut(data[..index], skip, false)
    ensures Delivered(data[..|data|], skip) == Delivered(data[..index], skip) && Cut(data[..|data|], skip, true)
  {
    assert data[..index] + data[index..] == data[..|data|];
    ReadOn(data[..index], data[index..], skip, false, true);
  }

  /** What one file contributes: the records between its start and its new position. */
  predicate FileRead(content: Bytes, start: (nat, bool), position: Position, records: seq<Bytes>) {
    && start.0 <= position.offset <= position.size == |content|
    && records == Delivered(content[start.0..position.offset], start.1)
    && Cut(content[start.0..position.offset], start.1, position.dropping)
    && position.anchor == Anchor(content, position.offset)
  }

  /** No complete line is waiting behind the position. */
  predicate Drained(content: Bytes, position: Position) {
    position.offset <= |content| && !Complete(content[position.offset..])
  }

  /** How many bytes a poll reads of one file. */
  function Quota(content: Bytes, offset: nat, budget: nat, remaining: Option<nat>): (n: nat)
    requires offset <= |content|
    ensures offset + n <= |content| && n <= budget
  {
    if remaining == Some(0) then 0 else if budget < |content| - offset then budget else |content| - offset
  }

  /** One file of read_log's loop. It fails if the file was not only appended to meanwhile. */
  method ReadFile(content: Bytes, later: Bytes, start: (nat, bool), budget: nat, remaining: Option<nat>)
    returns (ok: bool, position: Position, records: seq<Bytes>, read: nat, more: bool, limited: bool)
    requires start.0 <= |content|
    ensures ok ==> FileRead(content, start, position, records)
    ensures content <= later ==> ok
    ensures remaining.Some? ==> |records| <= remaining.value
    ensures read == Quota(content, start.0, budget, remaining)
    ensures ok && !more ==> Drained(content, position)
    ensures ok && more && budget > MAX_LINE && remaining != Some(0) ==> position.offset > start.0
    ensures ok ==> (position.offset == start.0 <==> Unmoved(content[start.0..start.0 + read], start.1))
    // It asks for another poll exactly if the records or the bytes of this one are used up before the end.
    ensures ok ==> (more <==> position.offset < |content| &&
                              (remaining == Some(|records|) || start.0 + read < |content|))
  {
    NothingDelivered();
    hide Delivered, Cut, Records, Tail, Anchor, Complete, Unmoved;
    UnmovedIsShort(content[start.0..start.0 + Quota(content, start.0, budget, remaining)], start.1);
    var offset := start.0;
    var count := if budget < |content| - offset then budget else |content| - offset;
    var data := if remaining != Some(0) then content[offset..offset + count] else [];
    read := |data|;
    var consumed, dropping;
    records, consumed, dropping, limited := Frame(data, start.1, remaining);
    Window(content, offset, data, consumed);
    var anchor;
    ok, anchor := Recheck(content, later, offset, data, consumed);
    position := Position(offset + consumed, |content|, anchor, dropping);
    more := position.offset < |content| && (remaining == Some(|records|) || count == 0 || offset + |data| < |content|
                                            || position.offset == offset + |data|);
  }

  /** What was read, up to and behind what was consumed of it. */
  lemma Window(content: Bytes, offset: nat, data: Bytes, consumed: nat)
    requires offset + |data| <= |content| && consumed <= |data| && data == content[offset..offset + |data|]
    ensures data[..consumed] == content[offset..offset + consumed]
    ensures offset + |data| == |content| ==> content[offset + consumed..] == data[consumed..]
    ensures offset + consumed == |content| ==> content[offset + consumed..] == []
  {
    var end := offset + |data|;
    Slice(content, offset, end, 0, consumed);
    Slice(content, offset, end, consumed, |data|);
    assert data[consumed..] == data[consumed..|data|];
    assert content[offset + consumed..] == content[offset + consumed..|content|];
  }

  /** The test that what was read, and what precedes it, is still there. */
  method Recheck(content: Bytes, later: Bytes, offset: nat, data: Bytes, consumed: nat)
    returns (ok: bool, anchor: Bytes)
    requires consumed <= |data| && offset + |data| <= |content| && data == content[offset..offset + |data|]
    ensures ok ==> anchor == Anchor(content, offset + consumed)
    ensures content <= later ==> ok
  {
    hide Anchor, LastBytes;
    var prefix := Anchor(content, offset);
    var both := prefix + data[..consumed];
    var expected := if consumed >= 64 then data[consumed - 64..consumed] else LastBytes(both);
    AnchorMoves(content, offset, consumed, data);
    if content <= later {
      AnchorStays(content, later, offset);
      AnchorStays(content, later, offset + consumed);
    }
    anchor := Anchor(later, offset + consumed);
    ok := Anchor(later, offset) == prefix && anchor == expected;
  }

  function LastBytes(bytes: Bytes): Bytes {
    if |bytes| > 64 then bytes[|bytes| - 64..] else bytes
  }

  /** The anchor of a new position can be told from the old anchor's bytes and those just read. */
  lemma AnchorMoves(content: Bytes, offset: nat, consumed: nat, data: Bytes)
    requires consumed <= |data| && offset + |data| <= |content| && data == content[offset..offset + |data|]
    ensures Anchor(content, offset + consumed) ==
              if consumed >= 64 then data[consumed - 64..consumed]
              else LastBytes(Anchor(content, offset) + data[..consumed])
  {
    hide *;
    var low, end := if offset > 64 then offset - 64 else 0, offset + consumed;
    AnchorIs(content, offset);
    AnchorIs(content, end);
    Slice(content, offset, offset + |data|, 0, consumed);
    if consumed >= 64 {
      Slice(content, offset, offset + |data|, consumed - 64, consumed);
    } else {
      assert content[low..offset] + content[offset..end] == content[low..end];
      LastSlice(content, low, end);
    }
  }

  lemma AnchorIs(content: Bytes, offset: nat)
    requires offset <= |content|
    ensures Anchor(content, offset) == content[if offset > 64 then offset - 64 else 0..offset]
  {
    if content == [] { assert content[0..0] == []; }
  }

  lemma Slice(s: Bytes, low: nat, high: nat, i: nat, j: nat)
    requires low <= high <= |s| && i <= j <= high - low
    ensures s[low..high][i..j] == s[low + i..low + j]
  {
    var a, b := s[low..high][i..j], s[low + i..low + j];
    assert |a| == |b| && forall k :: 0 <= k < |a| ==> a[k] == b[k];
    assert a == b;
  }

  lemma LastSlice(s: Bytes, low: nat, high: nat)
    requires low <= high <= |s|
    ensures LastBytes(s[low..high]) == s[if high - low > 64 then high - 64 else low..high]
  {
    if high - low > 64 { Slice(s, low, high, high - low - 64, high - low); }
  }

  lemma AnchorStays(content: Bytes, later: Bytes, offset: nat)
    requires content <= later && offset <= |content|
    ensures Anchor(later, offset) == Anchor(content, offset)
  {
  }

  function Flatten(parts: seq<seq<Bytes>>): seq<Bytes> {
    if parts == [] then [] else Flatten(parts[..|parts| - 1]) + parts[|parts| - 1]
  }

  datatype Reply = Reply(records: seq<Bytes>, cursor: Cursor, reset: bool, more: bool, limited: bool) | Raised

  predicate Distinct(files: seq<Entry>) {
    forall i, j :: 0 <= i < j < |files| ==> files[i].inode != files[j].inode
  }

  function Previous(previous: Option<Cursor>): map<Inode, Position> {
    if previous.Some? then previous.value.files else map[]
  }

  predicate Unlisted(files: seq<Entry>, key: Inode) {
    forall i :: 0 <= i < |files| ==> files[i].inode != key
  }

  /** A tracked file has disappeared: the active one, or one that had not been read to its end. */
  predicate Lost(files: seq<Entry>, previous: Option<Cursor>) {
    && previous.Some?
    && exists key :: key in previous.value.files && Unlisted(files, key)
                     && (Some(key) == previous.value.active ||
                          previous.value.files[key].offset < previous.value.files[key].size)
  }

  /** The reply's cursor and parts for one listed file. */
  predicate Accounted(e: Entry, active: Option<Inode>, previous: Option<Cursor>, positions: map<Inode, Position>,
                      part: seq<Bytes>) {
    if e.found.Stream? then
      && e.inode in positions
      && FileRead(e.found.content, Start(previous, active, e.inode, e.found.content, SNAPSHOT_BYTES),
           positions[e.inode], part)
    else
      && part == []
      && (e.inode in positions <==> e.inode in Previous(previous))
      && (e.inode in positions ==> positions[e.inode] == Previous(previous)[e.inode])
  }

  predicate Finished(e: Entry, positions: map<Inode, Position>) {
    e.found.Stream? && e.inode in positions && Drained(e.found.content, positions[e.inode])
  }

  predicate Refitted(e: Entry, active: Option<Inode>, previous: Option<Cursor>) {
    && e.found.Stream?
    && var position := Resumes(previous, active, e.inode, e.found.content);
       position.Some? && !Fits(e.found.content, position.value)
  }

  /** read_log. `parts` tells which of the records came from which listed file. */
  method ReadLog(files: seq<Entry>, active: Option<Inode>, previous: Option<Cursor>, limit: nat)
    returns (r: Reply, parts: seq<seq<Bytes>>)
    requires Distinct(files)
    ensures r.Reply? ==>
              && |parts| == |files| && r.cursor.active == active
              && (forall i :: 0 <= i < |files| ==> Accounted(files[i], active, previous, r.cursor.files, parts[i]))
              && (forall key :: key in r.cursor.files ==> exists i :: 0 <= i < |files| && files[i].inode == key)
    ensures r.Reply? && previous.Some? ==> r.records == Flatten(parts) && |r.records| <= limit
    ensures r.Reply? && previous.None? ==>
              && IsEnd(r.records, Flatten(parts)) && |r.records| == Initial(|Flatten(parts)|)
              && forall i :: 0 <= i < |files| ==> Shown(files[i], active, parts[i])
    ensures r.Reply? && !r.more ==> forall i :: 0 <= i < |files| ==> Finished(files[i], r.cursor.files)
    ensures r.Reply? ==> (r.reset <==>
              Lost(files, previous) || exists i :: 0 <= i < |files| && Refitted(files[i], active, previous))
    ensures r.Reply? && previous.Some? && |files| == 1 && files[0].found.Stream? && r.more ==>
              && files[0].inode in r.cursor.files
              && r.cursor.files[files[0].inode].offset > Start(previous, active, files[0].inode,
                   files[0].found.content, 0).0
    // It asks for another poll although it got no further, exactly if unterminated lines used up its bytes.
    ensures r.Reply? && previous.Some? && AllOpened(files) ==>
              (r.more && Unmoving(files, active, previous, |files|, r.cursor.files) <==>
               Starved(files, active, previous, |files|))
    ensures && 1 <= limit <= 1000 && (previous.Some? || active.Some?) && |files| <= MAX_FILES
            && (forall i :: 0 <= i < |files| && files[i].found.Stream? ==>
                 files[i].found.content <= files[i].found.later)
            ==> r.Reply?
  {
    hide *;
    parts := [];
    if !(1 <= limit <= 1000) || (previous.None? && active.None?) { return Raised, parts; }
    var budget := if previous.None? then SNAPSHOT_BYTES else FOLLOW_BYTES;
    var remaining := if previous.None? then None else Some(limit);
    var p := Progress(map[], [], budget, remaining, Lost(files, previous), false, false);
    Begin(files, active, previous, limit, p);
    PacedBegins(files, active, previous, limit, p);
    for k := 0 to |files|
      invariant |parts| == k
      invariant Tracked(files, k, active, previous, p, parts) && Counted(previous, limit, p, parts)
      invariant Flagged(files, k, active, previous, p) && Paced(files, k, active, previous, limit, p)
    {
      NextBudget(files, k, active, previous, limit, p, parts);
      var ok, after, part, read, again, refit, long := ReadEntry(files[k], active, previous, p.budget, p.remaining);
      if !ok { return Raised, parts; }
      CountedStep(files[k], active, previous, limit, p, parts, after, part, read, again, refit, long);
      TrackedStep(files, k, active, previous, p, parts, after, part, read, again, refit, long);
      FlaggedStep(files, k, active, previous, limit, p, parts, after, part, read, again, refit, long);
      PacedStep(files, k, active, previous, limit, p, parts, after, part, read, again, refit, long);
      p := Next(p, files[k], after, part, read, again, refit, long);
      parts := parts + [part];
    }
    Finish(files, active, previous, limit, p, parts);
    if previous.None? { NewView(files, active, p, parts); }
    PacedEnds(files, active, previous, limit, p);
    if |p.positions| > MAX_FILES { return Raised, parts; }
    r := Reply(p.records, Cursor(p.positions, active), p.reset, p.more, p.limited);
  }

  /** The variables of read_log's loop. */
  datatype Progress = Progress(positions: map<Inode, Position>, records: seq<Bytes>,
                               budget: nat, remaining: Option<nat>,
                               reset: bool, more: bool, limited: bool)

  function LastRecords(records: seq<Bytes>): seq<Bytes> {
    if |records| > MAX_INITIAL_RECORDS then records[|records| - MAX_INITIAL_RECORDS..] else records
  }

  function Next(p: Progress, e: Entry, after: Option<Position>, part: seq<Bytes>, read: nat,
                again: bool, refit: bool, long: bool): Progress
    requires read <= p.budget && (p.remaining.Some? ==> |part| <= p.remaining.value)
  {
    Progress(if after.Some? then p.positions[e.inode := after.value] else p.positions,
             LastRecords(p.records + part),
             p.budget - read,
             if p.remaining.Some? then Some(p.remaining.value - |part|) else None,
             p.reset || refit, p.more || again, p.limited || long || |p.records + part| > MAX_INITIAL_RECORDS)
  }

  predicate Tracked(files: seq<Entry>, k: nat, active: Option<Inode>, previous: Option<Cursor>, p: Progress,
                    parts: seq<seq<Bytes>>) {
    && k <= |files| && |parts| == k && |p.positions| <= k
    && (forall i :: 0 <= i < k ==> Accounted(files[i], active, previous, p.positions, parts[i]))
    && (forall key :: key in p.positions ==> exists i :: 0 <= i < k && files[i].inode == key)
    && (forall i :: 0 <= i < k ==> ReadOut(files[i], previous, p.more, p.positions))
  }

  /** Nothing complete is left of a file if no other poll is asked for, nor on the first poll. */
  predicate ReadOut(e: Entry, previous: Option<Cursor>, more: bool, positions: map<Inode, Position>) {
    !more || (previous.None? && e.found.Stream?) ==> Finished(e, positions)
  }

  predicate Counted(previous: Option<Cursor>, limit: nat, p: Progress, parts: seq<seq<Bytes>>) {
    if previous.Some? then
      p.records == Flatten(parts) && |p.records| <= limit <= 1000 && p.remaining == Some(limit - |p.records|)
    else
      p.remaining == None && IsEnd(p.records, Flatten(parts)) && |p.records| == Initial(|Flatten(parts)|)
  }

  predicate Flagged(files: seq<Entry>, k: nat, active: Option<Inode>, previous: Option<Cursor>, p: Progress) {
    && k <= |files|
    && (p.reset <==> Lost(files, previous) || exists i :: 0 <= i < k && Refitted(files[i], active, previous))
    && (previous.None? ==> p.budget == SNAPSHOT_BYTES || exists i :: 0 <= i < k && Some(files[i].inode) == active)
    && (previous.Some? && k == 0 ==> p.budget == FOLLOW_BYTES)
    && (k == 0 ==> !p.more)
    && (previous.Some? && |files| == k == 1 && files[0].found.Stream? && p.more ==>
          files[0].inode in p.positions &&
          p.positions[files[0].inode].offset > Start(previous, active, files[0].inode, files[0].found.content, 0).0)
  }

  /** How many of so many records a new view is given. */
  function Initial(count: nat): nat {
    if count < MAX_INITIAL_RECORDS then count else MAX_INITIAL_RECORDS
  }

  /** What a new view shows of a file: the complete short lines of the active one, or, if it is larger
      than a snapshot, those that begin within its last SNAPSHOT_BYTES; nothing of the others. */
  predicate Shown(e: Entry, active: Option<Inode>, part: seq<Bytes>) {
    if !e.found.Stream? || Some(e.inode) != active then part == []
    else
      var content := e.found.content;
      if |content| <= SNAPSHOT_BYTES then part == Records(content)
      else
        var begin := |content| - SNAPSHOT_BYTES;
        part == Records(if content[begin - 1] == NEWLINE then content[begin..] else After(content[begin..], true))
  }

  lemma NewView(files: seq<Entry>, active: Option<Inode>, p: Progress, parts: seq<seq<Bytes>>)
    requires Tracked(files, |files|, active, None, p, parts)
    ensures forall i :: 0 <= i < |files| ==> Shown(files[i], active, parts[i])
  {
    forall i | 0 <= i < |files| ensures Shown(files[i], active, parts[i]) {
      assert Accounted(files[i], active, None, p.positions, parts[i]);
      if files[i].found.Stream? { ShownOf(files[i], active, p.positions, parts[i]); }
    }
  }

  lemma ShownOf(e: Entry, active: Option<Inode>, positions: map<Inode, Position>, part: seq<Bytes>)
    requires e.found.Stream? && Accounted(e, active, None, positions, part) && Finished(e, positions)
    ensures Shown(e, active, part)
  {
    hide Records, After, Cut, Complete;
    var content, position := e.found.content, positions[e.inode];
    var start := Start(None, active, e.inode, content, SNAPSHOT_BYTES);
    var a, b := content[start.0..position.offset], content[position.offset..];
    assert a + b == content[start.0..];
    ReadOn(a, b, start.1, position.dropping, false);
    NothingLeft(b, position.dropping);
    assert Delivered(a, start.1) + [] == Delivered(a, start.1);
    NothingDelivered();
    StartBytes(content, start.0);
    NotDropping(content[start.0..]);
  }

  lemma StartBytes(content: Bytes, start: nat)
    requires start <= |content|
    ensures start == 0 ==> content[start..] == content
    ensures start == |content| ==> content[start..] == []
  {
  }

  lemma NotDropping(s: Bytes)
    ensures Delivered(s, false) == Records(s) && Delivered(s, true) == Records(After(s, true))
  {
  }

  lemma NothingDelivered()
    ensures Delivered([], false) == [] && !Complete([])
  {
  }

  lemma NothingLeft(s: Bytes, dropping: bool)
    requires !Complete(s)
    ensures Delivered(s, dropping) == []
  {
    NoRecord(s);
    NoRecord([]);
  }

  predicate IsEnd(end: seq<Bytes>, all: seq<Bytes>) {
    |end| <= |all| && end == all[|all| - |end|..]
  }

  /** What read_log does with one listed file. */
  method ReadEntry(e: Entry, active: Option<Inode>, previous: Option<Cursor>, budget: nat, remaining: Option<nat>)
    returns (ok: bool, after: Option<Position>, part: seq<Bytes>, read: nat, again: bool, refit: bool, long: bool)
    requires previous.None? && Some(e.inode) == active ==> budget == SNAPSHOT_BYTES
    requires previous.None? ==> remaining.None?
    ensures ok ==> EntryRead(e, active, previous, budget, remaining, after, part, read, again, refit)
    ensures !e.found.Stream? || e.found.content <= e.found.later ==> ok
  {
    hide FileRead, Drained, Anchor, Unmoved, EntryRead;
    ok, after, part, read, again, refit, long := true, None, [], 0, true, false, false;
    match e.found
    case Stream(content, later) =>
      var position := Resumes(previous, active, e.inode, content);
      refit := position.Some? && !Fits(content, position.value);
      var start := Start(previous, active, e.inode, content, budget);
      assert start == Start(previous, active, e.inode, content, SNAPSHOT_BYTES);
      var next;
      ok, next, part, read, again, long := ReadFile(content, later, start, budget, remaining);
      long := long || (previous.None? && Some(e.inode) == active && start.0 > 0);
      after := Some(next);
      if ok { StreamRead(e, active, previous, budget, remaining, next, part, read, again, refit); }
    case _ =>
      if e.inode in Previous(previous) { after := Some(Previous(previous)[e.inode]); }
      NotRead(e, active, previous, budget, remaining, after);
  }

  lemma StreamRead(e: Entry, active: Option<Inode>, previous: Option<Cursor>, budget: nat, remaining: Option<nat>,
                   next: Position, part: seq<Bytes>, read: nat, again: bool, refit: bool)
    requires e.found.Stream? && refit == Refitted(e, active, previous)
    requires previous.None? ==> remaining.None? && (Some(e.inode) == active ==> budget == SNAPSHOT_BYTES)
    requires var content, start := e.found.content, Start(previous, active, e.inode, e.found.content, SNAPSHOT_BYTES);
             && start.0 <= |content| && FileRead(content, start, next, part)
             && (remaining.Some? ==> |part| <= remaining.value)
             && read == Quota(content, start.0, budget, remaining) && (!again ==> Drained(content, next))
             && (again && budget > MAX_LINE && remaining != Some(0) ==> next.offset > start.0)
             && (next.offset == start.0 <==> Unmoved(content[start.0..start.0 + read], start.1))
             && (again <==> next.offset < |content| && (remaining == Some(|part|) || start.0 + read < |content|))
    ensures EntryRead(e, active, previous, budget, remaining, Some(next), part, read, again, refit)
  {
    hide FileRead, Drained, Anchor, Unmoved, Refitted, Fits, Start;
    NoPart(e.found.content, Start(previous, active, e.inode, e.found.content, SNAPSHOT_BYTES), next, part);
    LaterStart(previous, active, e);
    if previous.None? { FirstRead(e, active, budget, next, part, read, again); }
  }

  lemma LaterStart(previous: Option<Cursor>, active: Option<Inode>, e: Entry)
    requires e.found.Stream?
    ensures previous.Some? ==> Start(previous, active, e.inode, e.found.content, 0) ==
                               Start(previous, active, e.inode, e.found.content, SNAPSHOT_BYTES)
  {
  }

  /** A first poll reads to the end. */
  lemma FirstRead(e: Entry, active: Option<Inode>, budget: nat, next: Position, part: seq<Bytes>, read: nat,
                  again: bool)
    requires e.found.Stream? && (Some(e.inode) == active ==> budget == SNAPSHOT_BYTES)
    requires var content, start := e.found.content, Start(None, active, e.inode, e.found.content, SNAPSHOT_BYTES);
             && start.0 <= |content| && read == Quota(content, start.0, budget, None) && start.0 <= next.offset
             && (again <==> next.offset < |content| && start.0 + read < |content|)
    ensures !again && (Some(e.inode) != active ==> read == 0)
  {
  }

  lemma NoPart(content: Bytes, start: (nat, bool), position: Position, part: seq<Bytes>)
    requires FileRead(content, start, position, part)
    ensures start.0 <= position.offset && (position.offset == start.0 ==> part == [])
  {
    assert position.offset == start.0 ==> content[start.0..position.offset] == [];
  }

  lemma NotRead(e: Entry, active: Option<Inode>, previous: Option<Cursor>, budget: nat, remaining: Option<nat>,
                after: Option<Position>)
    requires !e.found.Stream?
    requires after == if e.inode in Previous(previous) then Some(Previous(previous)[e.inode]) else None
    ensures EntryRead(e, active, previous, budget, remaining, after, [], 0, true, false)
  {
  }

  predicate EntryRead(e: Entry, active: Option<Inode>, previous: Option<Cursor>, budget: nat, remaining: Option<nat>,
                      after: Option<Position>, part: seq<Bytes>, read: nat, again: bool, refit: bool) {
    && Accounted(e, active, previous, if after.Some? then map[e.inode := after.value] else map[], part)
    && (remaining.Some? ==> |part| <= remaining.value)
    && read <= budget && (previous.None? && Some(e.inode) != active ==> read == 0)
    && (!again || (previous.None? && e.found.Stream?) ==> after.Some? && Finished(e, map[e.inode := after.value]))
    && refit == Refitted(e, active, previous)
    && (e.found.Stream? ==> Advances(e, active, previous, budget, remaining, after, part, read, again))
    && (e.found.Stream? && again && previous.Some? && budget > MAX_LINE && remaining != Some(0) ==>
          after.Some? && after.value.offset > Start(previous, active, e.inode, e.found.content, 0).0)
  }

  /** How far an opened file is read, whether its position moves, and when another poll is asked for. */
  predicate Advances(e: Entry, active: Option<Inode>, previous: Option<Cursor>, budget: nat, remaining: Option<nat>,
                     after: Option<Position>, part: seq<Bytes>, read: nat, again: bool)
    requires e.found.Stream?
  {
    var content, start := e.found.content, Start(previous, active, e.inode, e.found.content, SNAPSHOT_BYTES);
    && after.Some? && start.0 <= |content| && read == Quota(content, start.0, budget, remaining)
    && (after.value.offset == start.0 <==> Unmoved(content[start.0..start.0 + read], start.1))
    && (after.value.offset == start.0 ==> part == [])
    && (again <==> after.value.offset < |content| && (remaining == Some(|part|) || start.0 + read < |content|))
  }

  lemma Begin(files: seq<Entry>, active: Option<Inode>, previous: Option<Cursor>, limit: nat, p: Progress)
    requires p == Progress(map[], [], if previous.None? then SNAPSHOT_BYTES else FOLLOW_BYTES,
                           if previous.None? then None else Some(limit), Lost(files, previous), false, false)
    requires limit <= 1000
    ensures Tracked(files, 0, active, previous, p, []) && Counted(previous, limit, p, []) &&
              Flagged(files, 0, active, previous, p)
  {
  }

  lemma NextBudget(files: seq<Entry>, k: nat, active: Option<Inode>, previous: Option<Cursor>, limit: nat,
                   p: Progress, parts: seq<seq<Bytes>>)
    requires Distinct(files) && k < |files| && Flagged(files, k, active, previous, p) &&
               Counted(previous, limit, p, parts)
    ensures previous.None? && Some(files[k].inode) == active ==> p.budget == SNAPSHOT_BYTES
    ensures previous.None? ==> p.remaining.None?
  {
  }

  /** The new position of one file does not touch what was found about another, ... */
  lemma Elsewhere(e: Entry, active: Option<Inode>, previous: Option<Cursor>, positions: map<Inode, Position>,
                  key: Inode, position: Position, part: seq<Bytes>)
    requires e.inode != key
    ensures Accounted(e, active, previous, positions, part) <==>
              Accounted(e, active, previous, positions[key := position], part)
    ensures Finished(e, positions) <==> Finished(e, positions[key := position])
  {
  }

  /** ... and is all that matters for its own file. */
  lemma Here(e: Entry, active: Option<Inode>, previous: Option<Cursor>, some: map<Inode, Position>,
             positions: map<Inode, Position>, part: seq<Bytes>)
    requires e.inode in some <==> e.inode in positions
    requires e.inode in some ==> some[e.inode] == positions[e.inode]
    ensures Accounted(e, active, previous, some, part) <==> Accounted(e, active, previous, positions, part)
    ensures Finished(e, some) <==> Finished(e, positions)
  {
  }

  lemma TrackedStep(files: seq<Entry>, k: nat, active: Option<Inode>, previous: Option<Cursor>, p: Progress,
                    parts: seq<seq<Bytes>>,
                    after: Option<Position>, part: seq<Bytes>, read: nat, again: bool, refit: bool, long: bool)
    requires Distinct(files) && k < |files| && Tracked(files, k, active, previous, p, parts)
    requires EntryRead(files[k], active, previous, p.budget, p.remaining, after, part, read, again, refit)
    requires read <= p.budget && (p.remaining.Some? ==> |part| <= p.remaining.value)
    ensures Tracked(files, k + 1, active, previous, Next(p, files[k], after, part, read, again, refit, long),
              parts + [part])
  {
    hide Accounted, ReadOut, EntryRead, Next, Finished;
    var q := Next(p, files[k], after, part, read, again, refit, long);
    NextIs(p, files[k], after, part, read, again, refit, long);
    TrackedOthers(files, k, active, previous, p, q, parts, part, after);
    TrackedHere(files[k], active, previous, p, q, after, part, read, again, refit);
    TrackedBuilt(files, k, active, previous, q, parts + [part]);
  }

  lemma TrackedBuilt(files: seq<Entry>, k: nat, active: Option<Inode>, previous: Option<Cursor>, q: Progress,
                     parts: seq<seq<Bytes>>)
    requires k < |files| && |parts| == k + 1 && |q.positions| <= k + 1
    requires forall i :: 0 <= i < k ==> Accounted(files[i], active, previous, q.positions, parts[i])
    requires forall i :: 0 <= i < k ==> ReadOut(files[i], previous, q.more, q.positions)
    requires Accounted(files[k], active, previous, q.positions, parts[k])
    requires ReadOut(files[k], previous, q.more, q.positions)
    requires forall key :: key in q.positions ==> exists i :: 0 <= i < k + 1 && files[i].inode == key
    ensures Tracked(files, k + 1, active, previous, q, parts)
  {
    hide Accounted, ReadOut;
  }

  lemma NextIs(p: Progress, e: Entry, after: Option<Position>, part: seq<Bytes>, read: nat,
               again: bool, refit: bool, long: bool)
    requires read <= p.budget && (p.remaining.Some? ==> |part| <= p.remaining.value)
    ensures var q := Next(p, e, after, part, read, again, refit, long);
            && q.positions == (if after.Some? then p.positions[e.inode := after.value] else p.positions)
            && q.budget == p.budget - read && (q.more <==> p.more || again)
            && (p.remaining.Some? ==> q.remaining == Some(p.remaining.value - |part|))
  {
  }

  lemma TrackedHere(e: Entry, active: Option<Inode>, previous: Option<Cursor>, p: Progress, q: Progress,
                    after: Option<Position>, part: seq<Bytes>, read: nat, again: bool, refit: bool)
    requires EntryRead(e, active, previous, p.budget, p.remaining, after, part, read, again, refit)
    requires q.positions == if after.Some? then p.positions[e.inode := after.value] else p.positions
    requires e.inode !in p.positions && (again ==> q.more)
    ensures Accounted(e, active, previous, q.positions, part) && ReadOut(e, previous, q.more, q.positions)
  {
    hide Accounted, Finished, Refitted, Start, EntryRead;
    EntryCounts(e, active, previous, p.budget, p.remaining, after, part, read, again, refit);
    var added := if after.Some? then map[e.inode := after.value] else map[];
    Here(e, active, previous, added, q.positions, part);
  }

  lemma EntryCounts(e: Entry, active: Option<Inode>, previous: Option<Cursor>, budget: nat, remaining: Option<nat>,
                    after: Option<Position>, part: seq<Bytes>, read: nat, again: bool, refit: bool)
    requires EntryRead(e, active, previous, budget, remaining, after, part, read, again, refit)
    ensures Accounted(e, active, previous, if after.Some? then map[e.inode := after.value] else map[], part)
    ensures !again || (previous.None? && e.found.Stream?) ==> after.Some? && Finished(e, map[e.inode := after.value])
    ensures read <= budget && (remaining.Some? ==> |part| <= remaining.value)
  {
    hide Accounted, Finished, Refitted, Start;
  }

  lemma TrackedOthers(files: seq<Entry>, k: nat, active: Option<Inode>, previous: Option<Cursor>, p: Progress,
                      q: Progress,
                      parts: seq<seq<Bytes>>, part: seq<Bytes>, after: Option<Position>)
    requires Distinct(files) && k < |files| && Tracked(files, k, active, previous, p, parts) && (p.more ==> q.more)
    requires q.positions == if after.Some? then p.positions[files[k].inode := after.value] else p.positions
    ensures forall i :: 0 <= i < k ==> Accounted(files[i], active, previous, q.positions, (parts + [part])[i])
    ensures forall i :: 0 <= i < k ==> ReadOut(files[i], previous, q.more, q.positions)
    ensures |q.positions| <= k + 1 && forall key :: key in q.positions ==>
              exists i :: 0 <= i < k + 1 && files[i].inode == key
    ensures files[k].inode !in p.positions && |parts| == k && (parts + [part])[k] == part
  {
    hide Accounted, Finished;
    var key := files[k].inode;
    PositionsGrow(files, k, p.positions, q.positions);
    forall i | 0 <= i < k
      ensures Accounted(files[i], active, previous, q.positions, parts[i])
      ensures ReadOut(files[i], previous, q.more, q.positions)
    {
      if after.Some? { Elsewhere(files[i], active, previous, p.positions, key, after.value, parts[i]); }
    }
  }

  lemma PositionsGrow(files: seq<Entry>, k: nat, p: map<Inode, Position>, q: map<Inode, Position>)
    requires k < |files| && |p| <= k && (forall key :: key in p ==> exists i :: 0 <= i < k && files[i].inode == key)
    requires q == p || (files[k].inode in q && q == p[files[k].inode := q[files[k].inode]])
    ensures |q| <= k + 1 && forall key :: key in q ==> exists i :: 0 <= i < k + 1 && files[i].inode == key
  {
    if q != p { assert q.Keys == p.Keys + {files[k].inode}; }
  }

  lemma CountedStep(e: Entry, active: Option<Inode>, previous: Option<Cursor>, limit: nat, p: Progress,
                    parts: seq<seq<Bytes>>,
                    after: Option<Position>, part: seq<Bytes>, read: nat, again: bool, refit: bool, long: bool)
    requires Counted(previous, limit, p, parts)
    requires EntryRead(e, active, previous, p.budget, p.remaining, after, part, read, again, refit)
    ensures read <= p.budget && (p.remaining.Some? ==> |part| <= p.remaining.value)
    ensures Counted(previous, limit, Next(p, e, after, part, read, again, refit, long), parts + [part])
  {
    hide Accounted, Finished, Refitted, Start, LastRecords, Counted;
    var q := Next(p, e, after, part, read, again, refit, long);
    CountedNext(previous, limit, p, q, parts, part);
  }

  lemma CountedNext(previous: Option<Cursor>, limit: nat, p: Progress, q: Progress, parts: seq<seq<Bytes>>,
                    part: seq<Bytes>)
    requires Counted(previous, limit, p, parts) && (p.remaining.Some? ==> |part| <= p.remaining.value)
    requires q.records == LastRecords(p.records + part)
    requires q.remaining == if p.remaining.Some? then Some(p.remaining.value - |part|) else None
    ensures Counted(previous, limit, q, parts + [part])
  {
    hide Flatten;
    FlattenMore(parts, part);
    if previous.None? { EndMore(p.records, Flatten(parts), part); }
  }

  lemma FlattenMore(parts: seq<seq<Bytes>>, part: seq<Bytes>)
    ensures Flatten(parts + [part]) == Flatten(parts) + part
  {
    var all := parts + [part];
    assert all[..|all| - 1] == parts;
  }

  lemma EndMore(end: seq<Bytes>, all: seq<Bytes>, part: seq<Bytes>)
    requires IsEnd(end, all)
    ensures IsEnd(LastRecords(end + part), all + part)
    ensures |end| == Initial(|all|) ==> |LastRecords(end + part)| == Initial(|all + part|)
  {
    assert all + part == all[..|all| - |end|] + (end + part);
  }

  lemma FlaggedStep(files: seq<Entry>, k: nat, active: Option<Inode>, previous: Option<Cursor>, limit: nat,
                    p: Progress, parts: seq<seq<Bytes>>,
                    after: Option<Position>, part: seq<Bytes>, read: nat, again: bool, refit: bool, long: bool)
    requires k < |files| && Flagged(files, k, active, previous, p) && Counted(previous, limit, p, parts) &&
               |parts| == k && limit > 0
    requires EntryRead(files[k], active, previous, p.budget, p.remaining, after, part, read, again, refit)
    requires read <= p.budget && (p.remaining.Some? ==> |part| <= p.remaining.value)
    ensures Flagged(files, k + 1, active, previous, Next(p, files[k], after, part, read, again, refit, long))
  {
    hide Accounted, Finished, Refitted, Lost, Start, LastRecords, Counted, EntryRead;
    var e, q := files[k], Next(p, files[k], after, part, read, again, refit, long);
    EntryFlags(e, active, previous, p.budget, p.remaining, after, part, read, again, refit);
    assert q.reset <==> Lost(files, previous) || exists i :: 0 <= i < k + 1 && Refitted(files[i], active, previous);
    assert previous.None? ==>
        q.budget == SNAPSHOT_BYTES || exists i :: 0 <= i < k + 1 && Some(files[i].inode) == active;
    if k == 0 { FirstCounted(previous, limit, p, parts); }
  }

  lemma EntryFlags(e: Entry, active: Option<Inode>, previous: Option<Cursor>, budget: nat, remaining: Option<nat>,
                   after: Option<Position>, part: seq<Bytes>, read: nat, again: bool, refit: bool)
    requires EntryRead(e, active, previous, budget, remaining, after, part, read, again, refit)
    ensures read <= budget && (previous.None? && Some(e.inode) != active ==> read == 0)
    ensures refit <==> Refitted(e, active, previous)
    ensures e.found.Stream? && again && previous.Some? && budget > MAX_LINE && remaining != Some(0) ==>
              after.Some? && after.value.offset > Start(previous, active, e.inode, e.found.content, 0).0
    ensures !again ==> after.Some?
    ensures remaining.Some? ==> |part| <= remaining.value
  {
    hide Accounted, Finished, Refitted, Start;
  }

  lemma FirstCounted(previous: Option<Cursor>, limit: nat, p: Progress, parts: seq<seq<Bytes>>)
    requires Counted(previous, limit, p, parts) && parts == []
    ensures previous.Some? ==> p.remaining == Some(limit)
  {
  }

  lemma Finish(files: seq<Entry>, active: Option<Inode>, previous: Option<Cursor>, limit: nat, p: Progress,
               parts: seq<seq<Bytes>>)
    requires Tracked(files, |files|, active, previous, p, parts) && Counted(previous, limit, p, parts)
    requires Flagged(files, |files|, active, previous, p)
    ensures |p.positions| <= |files|
    ensures forall i :: 0 <= i < |files| ==> Accounted(files[i], active, previous, p.positions, parts[i])
    ensures forall key :: key in p.positions ==> exists i :: 0 <= i < |files| && files[i].inode == key
    ensures previous.Some? ==> p.records == Flatten(parts) && |p.records| <= limit
    ensures previous.None? ==> IsEnd(p.records, Flatten(parts)) && |p.records| == Initial(|Flatten(parts)|)
    ensures !p.more ==> forall i :: 0 <= i < |files| ==> Finished(files[i], p.positions)
    ensures p.reset <==> Lost(files, previous) || exists i :: 0 <= i < |files| && Refitted(files[i], active, previous)
    ensures previous.Some? && |files| == 1 && files[0].found.Stream? && p.more ==>
              && files[0].inode in p.positions
              && p.positions[files[0].inode].offset > Start(previous, active, files[0].inode, files[0].found.content,
                   0).0
  {
  }

  // ---------------------------------------------------------------------------------------
  // Polls that get no further
  // ---------------------------------------------------------------------------------------

  predicate AllOpened(files: seq<Entry>) {
    forall i :: 0 <= i < |files| ==> files[i].found.Stream?
  }

  /** What is behind the place where reading a file begins. */
  function Behind(e: Entry, active: Option<Inode>, previous: Option<Cursor>): Bytes {
    if !e.found.Stream? then []
    else
      var from := Start(previous, active, e.inode, e.found.content, SNAPSHOT_BYTES).0;
      if from <= |e.found.content| then e.found.content[from..] else []
  }

  function InLine(e: Entry, active: Option<Inode>, previous: Option<Cursor>): bool {
    e.found.Stream? && Start(previous, active, e.inode, e.found.content, SNAPSHOT_BYTES).1
  }

  function Waiting(files: seq<Entry>, active: Option<Inode>, previous: Option<Cursor>, k: nat): (n: nat)
    requires k <= |files|
  {
    if k == 0 then 0 else Waiting(files, active, previous, k - 1) + |Behind(files[k - 1], active, previous)|
  }

  /** Behind the positions of the first k files there is only a line each that has not ended. */
  predicate Idle(files: seq<Entry>, active: Option<Inode>, previous: Option<Cursor>, k: nat)
    requires k <= |files|
  {
    forall i :: 0 <= i < k ==> Unmoved(Behind(files[i], active, previous), InLine(files[i], active, previous))
  }

  /** The unfinished lines of the first k files leave so few bytes of a poll that file k gets no further. */
  predicate StarvedAt(files: seq<Entry>, active: Option<Inode>, previous: Option<Cursor>, k: nat)
    requires k < |files|
  {
    var used, behind := Waiting(files, active, previous, k), Behind(files[k], active, previous);
    && Idle(files, active, previous, k) && used <= FOLLOW_BYTES < used + |behind|
    && Unmoved(behind[..FOLLOW_BYTES - used], InLine(files[k], active, previous))
  }

  predicate Starved(files: seq<Entry>, active: Option<Inode>, previous: Option<Cursor>, n: nat)
    requires n <= |files|
  {
    exists k :: 0 <= k < n && StarvedAt(files, active, previous, k)
  }

  /** No position of the first k files has moved. */
  predicate Unmoving(files: seq<Entry>, active: Option<Inode>, previous: Option<Cursor>, k: nat,
                     positions: map<Inode, Position>)
    requires k <= |files|
  {
    forall i :: 0 <= i < k ==> Resting(files[i], active, previous, positions)
  }

  predicate Resting(e: Entry, active: Option<Inode>, previous: Option<Cursor>, positions: map<Inode, Position>) {
    && e.found.Stream? && e.inode in positions
    && positions[e.inode].offset == Start(previous, active, e.inode, e.found.content, SNAPSHOT_BYTES).0
  }

  predicate Fresh(files: seq<Entry>, active: Option<Inode>, previous: Option<Cursor>, k: nat)
    requires k <= |files|
  {
    Idle(files, active, previous, k) && Waiting(files, active, previous, k) <= FOLLOW_BYTES
  }

  predicate Paced(files: seq<Entry>, k: nat, active: Option<Inode>, previous: Option<Cursor>, limit: nat, p: Progress) {
    && k <= |files|
    && (previous.Some? && limit > 0 && AllOpened(files) ==>
          && (Unmoving(files, active, previous, k, p.positions) <==>
              Fresh(files, active, previous, k) || Starved(files, active, previous, k))
          && (Fresh(files, active, previous, k) ==>
                p.budget == FOLLOW_BYTES - Waiting(files, active, previous, k) && p.remaining == Some(limit) && !p.more)
          && (Starved(files, active, previous, k) ==> p.budget == 0 && p.remaining == Some(limit) && p.more))
  }

  lemma PacedBegins(files: seq<Entry>, active: Option<Inode>, previous: Option<Cursor>, limit: nat, p: Progress)
    requires p == Progress(map[], [], if previous.None? then SNAPSHOT_BYTES else FOLLOW_BYTES,
                           if previous.None? then None else Some(limit), Lost(files, previous), false, false)
    ensures Paced(files, 0, active, previous, limit, p)
  {
  }

  lemma PacedEnds(files: seq<Entry>, active: Option<Inode>, previous: Option<Cursor>, limit: nat, p: Progress)
    requires Paced(files, |files|, active, previous, limit, p) && limit > 0
    ensures previous.Some? && AllOpened(files) ==>
              (p.more && Unmoving(files, active, previous, |files|, p.positions) <==>
               Starved(files, active, previous, |files|))
  {
    hide Unmoving, Starved, Fresh;
  }

  lemma {:induction false} WaitingGrows(files: seq<Entry>, active: Option<Inode>, previous: Option<Cursor>,
                                        j: nat, k: nat)
    requires j <= k <= |files|
    ensures Waiting(files, active, previous, j) <= Waiting(files, active, previous, k)
    decreases k
  {
    hide Behind;
    if j < k { WaitingGrows(files, active, previous, j, k - 1); }
  }

  /** One is starved of bytes or has some left, not both. */
  lemma StarvedNotFresh(files: seq<Entry>, active: Option<Inode>, previous: Option<Cursor>, k: nat)
    requires k <= |files| && Starved(files, active, previous, k)
    ensures Waiting(files, active, previous, k) > FOLLOW_BYTES
  {
    var j :| 0 <= j < k && StarvedAt(files, active, previous, j);
    WaitingGrows(files, active, previous, j + 1, k);
  }

  lemma StarvedNext(files: seq<Entry>, active: Option<Inode>, previous: Option<Cursor>, k: nat)
    requires k < |files|
    ensures Starved(files, active, previous, k + 1) <==>
              Starved(files, active, previous, k) || StarvedAt(files, active, previous, k)
    ensures Fresh(files, active, previous, k + 1) <==>
              && Fresh(files, active, previous, k) && |Behind(files[k], active, previous)| <=
                   FOLLOW_BYTES - Waiting(files, active, previous, k)
              && Unmoved(Behind(files[k], active, previous), InLine(files[k], active, previous))
    ensures Fresh(files, active, previous, k) ==> Waiting(files, active, previous, k) <= FOLLOW_BYTES
    ensures StarvedAt(files, active, previous, k) <==>
              var rest := FOLLOW_BYTES - Waiting(files, active, previous, k);
              && Fresh(files, active, previous, k) && rest < |Behind(files[k], active, previous)|
              && Unmoved(Behind(files[k], active, previous)[..rest], InLine(files[k], active, previous))
    ensures Starved(files, active, previous, k + 1) ==> !Fresh(files, active, previous, k + 1)
    ensures Starved(files, active, previous, k) ==> !Fresh(files, active, previous, k)
  {
    hide Behind, InLine, Unmoved;
    if Starved(files, active, previous, k + 1) { StarvedNotFresh(files, active, previous, k + 1); }
    if Starved(files, active, previous, k) { StarvedNotFresh(files, active, previous, k); }
  }

  /** What a step does to the position of its own file and to those of the others. */
  lemma UnmovingNext(files: seq<Entry>, k: nat, active: Option<Inode>, previous: Option<Cursor>, p: Progress,
                     after: Position, q: map<Inode, Position>)
    requires Distinct(files) && k < |files| && files[k].found.Stream? && q == p.positions[files[k].inode := after]
    ensures Unmoving(files, active, previous, k + 1, q) <==>
              && Unmoving(files, active, previous, k, p.positions)
              && after.offset == Start(previous, active, files[k].inode, files[k].found.content, SNAPSHOT_BYTES).0
  {
    hide Start;
    forall i | 0 <= i < k
      ensures Resting(files[i], active, previous, q) <==> Resting(files[i], active, previous, p.positions)
    {
    }
    assert Resting(files[k], active, previous, q) <==>
           after.offset == Start(previous, active, files[k].inode, files[k].found.content, SNAPSHOT_BYTES).0;
    if Unmoving(files, active, previous, k + 1, q) {
      assert Resting(files[k], active, previous, q);
      forall i | 0 <= i < k ensures Resting(files[i], active, previous, p.positions) {
        assert Resting(files[i], active, previous, q);
      }
    }
  }

  lemma PacedStep(files: seq<Entry>, k: nat, active: Option<Inode>, previous: Option<Cursor>, limit: nat, p: Progress,
                  parts: seq<seq<Bytes>>,
                  after: Option<Position>, part: seq<Bytes>, read: nat, again: bool, refit: bool, long: bool)
    requires Distinct(files) && k < |files| && Paced(files, k, active, previous, limit, p)
    requires Counted(previous, limit, p, parts)
    requires EntryRead(files[k], active, previous, p.budget, p.remaining, after, part, read, again, refit)
    requires read <= p.budget && (p.remaining.Some? ==> |part| <= p.remaining.value)
    ensures Paced(files, k + 1, active, previous, limit, Next(p, files[k], after, part, read, again, refit, long))
  {
    hide EntryRead, Next, Unmoving, Starved, Fresh, StarvedAt, Unmoved, Behind, InLine, Start, Counted, Waiting;
    var q := Next(p, files[k], after, part, read, again, refit, long);
    NextIs(p, files[k], after, part, read, again, refit, long);
    if previous.Some? && limit > 0 && AllOpened(files) {
      CountedSome(previous, limit, p, parts);
      WaitingNext(files, active, previous, k);
      EntryPaces(files[k], active, previous, p.budget, p.remaining, after, part, read, again, refit);
      UnmovingNext(files, k, active, previous, p, after.value, q.positions);
      StarvedNext(files, active, previous, k);
    }
  }

  lemma WaitingNext(files: seq<Entry>, active: Option<Inode>, previous: Option<Cursor>, k: nat)
    requires k < |files|
    ensures Waiting(files, active, previous, k + 1) ==
              Waiting(files, active, previous, k) + |Behind(files[k], active, previous)|
  {
  }

  lemma CountedSome(previous: Option<Cursor>, limit: nat, p: Progress, parts: seq<seq<Bytes>>)
    requires Counted(previous, limit, p, parts) && previous.Some?
    ensures p.remaining.Some?
  {
  }

  /** What an opened file adds, in terms of what is behind its position. */
  lemma EntryPaces(e: Entry, active: Option<Inode>, previous: Option<Cursor>, budget: nat, remaining: Option<nat>,
                   after: Option<Position>, part: seq<Bytes>, read: nat, again: bool, refit: bool)
    requires e.found.Stream? && EntryRead(e, active, previous, budget, remaining, after, part, read, again, refit)
    requires remaining.Some?
    ensures after.Some?
    ensures var behind := Behind(e, active, previous);
            var stays := after.value.offset == Start(previous, active, e.inode, e.found.content, SNAPSHOT_BYTES).0;
            && (remaining.value > 0 ==> read == if budget < |behind| then budget else |behind|)
            && read <= |behind| && (stays <==> Unmoved(behind[..read], InLine(e, active, previous)))
            && (stays ==> part == []) && behind[..|behind|] == behind
            && (stays && remaining.value > 0 ==> (again <==> read < |behind|))
    ensures budget == 0 ==> after.value.offset == Start(previous, active, e.inode, e.found.content, SNAPSHOT_BYTES).0
  {
    hide Accounted, Finished, Refitted, Start, Unmoved;
    var content, start := e.found.content, Start(previous, active, e.inode, e.found.content, SNAPSHOT_BYTES);
    assert Advances(e, active, previous, budget, remaining, after, part, read, again);
    assert content[start.0..][..read] == content[start.0..start.0 + read];
    assert read == 0 ==> content[start.0..start.0 + read] == [];
    NothingUnmoved(InLine(e, active, previous));
  }

  lemma NothingUnmoved(skip: bool)
    ensures Unmoved([], skip)
  {
  }
}
