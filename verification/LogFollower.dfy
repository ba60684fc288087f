/** Following a log over appends and rename rotations (app/scripts/log_reader.py).

    The class holds the files by inode, a caller that polls, and what the caller was given. */
module LogFollower {
  import opened Outcomes
  import opened Bytes
  import opened LogLines
  import opened LogCursor

  /** Of a file followed from `start`, `delivered` was handed out, and reading goes on at `reached`. */
  predicate Read(content: Bytes, start: (nat, bool), reached: (nat, bool), delivered: seq<Bytes>) {
    && start.0 <= reached.0 <= |content|
    && delivered == Delivered(content[start.0..reached.0], start.1)
    && Cut(content[start.0..reached.0], start.1, reached.1)
  }

  /** What was handed out and what is still to come make up exactly the complete short lines since
      the start, each once and in order. */
  lemma Exactly(content: Bytes, start: (nat, bool), reached: (nat, bool), delivered: seq<Bytes>)
    requires Read(content, start, reached, delivered)
    ensures delivered + Delivered(content[reached.0..], reached.1) == Delivered(content[start.0..], start.1)
    ensures !Complete(content[reached.0..]) ==> delivered == Delivered(content[start.0..], start.1)
  {
    var a, b := content[start.0..reached.0], content[reached.0..];
    assert a + b == content[start.0..];
    ReadOn(a, b, start.1, reached.1, false);
  }

  /** A poll that resumed at `reached` extends what was handed out, whatever is appended meanwhile. */
  lemma ReadFurther(before: Bytes, content: Bytes, later: Bytes, start: (nat, bool), reached: (nat, bool),
                    delivered: seq<Bytes>, position: Position, part: seq<Bytes>)
    requires before <= content <= later
    requires Read(before, start, reached, delivered) && FileRead(content, reached, position, part)
    ensures Read(later, start, (position.offset, position.dropping), delivered + part)
    ensures Fits(later, position)
    ensures Drained(content, position) ==> delivered + part == Delivered(content[start.0..], start.1)
  {
    hide Delivered, Cut, Anchor, Complete;
    var a, b := content[start.0..reached.0], content[reached.0..position.offset];
    assert a == before[start.0..reached.0];
    assert a + b == content[start.0..position.offset];
    ReadOn(a, b, start.1, reached.1, position.dropping);
    assert Read(content, start, (position.offset, position.dropping), delivered + part);
    AnchorStays(content, later, position.offset);
    StillRead(content, later, start, (position.offset, position.dropping), delivered + part);
    Exactly(content, start, (position.offset, position.dropping), delivered + part);
  }

  /** One whose file only grew is resumed where it was left. */
  lemma ResumesWhereLeft(previous: Cursor, active: Option<Inode>, key: Inode, before: Bytes, content: Bytes)
    requires before <= content && key in previous.files && Fits(before, previous.files[key])
    ensures Start(Some(previous), active, key, content, SNAPSHOT_BYTES) ==
              (previous.files[key].offset, previous.files[key].dropping)
    ensures Fits(content, previous.files[key])
  {
    AnchorStays(before, content, previous.files[key].offset);
  }

  function IndexOf(order: seq<Inode>, i: Inode): (k: nat)
    requires i in order
    ensures k < |order| && order[k] == i
  {
    if order[0] == i then 0 else 1 + IndexOf(order[1..], i)
  }

  /** The files by inode, and which of them is active. Of each, `delivered` was handed out since its
      reading began at `start`, and reading goes on at `reached`; `earlier` was handed out before that,
      in readings that were broken off. `missed` are the files that some poll left out of its listing,
      or could neither open nor knew; `again`, those read anew after something of them was handed out. */
  datatype View = View(files: seq<Bytes>, active: Option<Inode>, missed: set<Inode>, again: set<Inode>,
                       start: seq<(nat, bool)>, reached: seq<(nat, bool)>,
                       delivered: seq<seq<Bytes>>, earlier: seq<seq<Bytes>>)

  predicate Shaped(v: View) {
    && |v.start| == |v.reached| == |v.delivered| == |v.earlier| == |v.files|
    && (v.active.Some? ==> v.active.value == |v.files| - 1)
    && (forall i :: i in v.missed ==> i < |v.files|)
    && (forall i :: i in v.again ==> i < |v.files|)
  }

  predicate AllRead(v: View)
    requires Shaped(v)
  {
    forall i :: 0 <= i < |v.files| ==> Read(v.files[i], v.start[i], v.reached[i], v.delivered[i])
  }

  predicate Tracked(cursor: Option<Cursor>, i: Inode) {
    cursor.Some? && i in cursor.value.files
  }

  /** The cursor's positions belong to the files, and say where reading goes on. */
  predicate CursorFits(v: View, cursor: Option<Cursor>)
    requires Shaped(v)
  {
    cursor.Some? ==>
      && (cursor.value.active.Some? ==> cursor.value.active.value < |v.files|)
      && forall key :: key in cursor.value.files ==>
           && key < |v.files| && Fits(v.files[key], cursor.value.files[key])
           && v.reached[key] == (cursor.value.files[key].offset, cursor.value.files[key].dropping)
  }

  /** Files that the caller has not seen yet, and that no poll missed, will be read from their
      beginning: they are not taken for copies, because after a rotation the active file is another. */
  predicate NewAreNew(v: View, cursor: Option<Cursor>)
    requires Shaped(v)
  {
    forall i: Inode :: i < |v.files| && i !in v.missed && !Tracked(cursor, i) ==>
      && v.start[i] == v.reached[i] == (0, false)
      && (cursor.Some? && v.active.Some? && v.active == cursor.value.active ==> Some(i) == v.active)
  }

  /** Before the first poll nothing was read. */
  predicate Unread(v: View)
    requires Shaped(v)
  {
    forall i :: 0 <= i < |v.files| ==> v.start[i] == v.reached[i] == (0, false)
  }

  /** Something was handed out before the current reading of exactly the files that were read anew. */
  predicate AgainFits(v: View)
    requires Shaped(v)
  {
    v.again <= v.missed && forall i: Inode :: i < |v.files| ==> (i in v.again <==> v.earlier[i] != [])
  }

  predicate Consistent(v: View, cursor: Option<Cursor>) {
    && Shaped(v) && AllRead(v) && CursorFits(v, cursor) && NewAreNew(v, cursor) && AgainFits(v)
    && (cursor.None? ==> Unread(v) && v.missed == {})
  }

  // ---------------------------------------------------------------------------------------
  // Files that a listing left out
  // ---------------------------------------------------------------------------------------

  /** Where the program begins to read a file that the cursor does not know. */
  function Entrance(previous: Cursor, active: Option<Inode>, key: Inode, content: Bytes): (nat, bool) {
    var copied := Resumes(Some(previous), active, key, content);
    if copied.Some? then (copied.value.offset, copied.value.dropping) else (0, false)
  }

  /** The poll opens a file that the cursor has lost, and reads on elsewhere than where it was left. */
  predicate Restarts(v: View, previous: Cursor, poll: Poll, i: Inode)
    requires i < |v.reached| && i < |poll.found|
  {
    && i in poll.order && i !in poll.failing && i !in previous.files
    && Entrance(previous, v.active, i, poll.found[i]) != v.reached[i]
  }

  /** Exactly then it is not resumed where it was left. */
  lemma RestartsIff(v: View, previous: Cursor, poll: Poll, i: Inode)
    requires Consistent(v, Some(previous)) && Possible(v, poll) && i in poll.order && i !in poll.failing
    ensures Restarts(v, previous, poll, i) <==>
              Start(Some(previous), v.active, i, poll.found[i], SNAPSHOT_BYTES) != v.reached[i]
    ensures Restarts(v, previous, poll, i) ==>
              var from := Entrance(previous, v.active, i, poll.found[i]);
              from == Start(Some(previous), v.active, i, poll.found[i], SNAPSHOT_BYTES) && from.0 <= |poll.found[i]|
  {
    hide Read, Anchor;
    if i in previous.files { ResumesWhereLeft(previous, v.active, i, v.files[i], poll.found[i]); }
  }

  /** Only a file that some poll has missed is ever read anew. */
  lemma OnlyMissedRestart(v: View, previous: Cursor, poll: Poll, i: Inode)
    requires Consistent(v, Some(previous)) && Possible(v, poll) && i < |v.files| && Restarts(v, previous, poll, i)
    ensures i in v.missed
  {
  }

  /** A tracked file whose position is not its beginning, left out of one listing and then listed again,
      is read anew, unless it is taken for a copy of the active file that was read just as far. If it is
      the only one left out, that is reported exactly if it was active or not read to its end. */
  lemma LeftOutRestarts(v: View, previous: Cursor, first: Poll, cursor: Cursor, parts: seq<seq<Bytes>>,
                        w: View, second: Poll, i: Inode)
    requires Consistent(v, Some(previous)) && Possible(v, first) && Answered(v, Some(previous), first, cursor, parts)
    requires i in previous.files && i !in first.order && v.reached[i] != (0, false)
    requires Shaped(w) && w.reached == Polled(v, Some(previous), first, cursor, parts).reached && Possible(w, second)
    requires i in second.order && i !in second.failing
    ensures Restarts(w, cursor, second, i) <==>
              (Resumes(Some(cursor), w.active, i, second.found[i]).Some? ==>
                 Entrance(cursor, w.active, i, second.found[i]) != v.reached[i])
    ensures (forall key :: key in previous.files && key != i ==> key in first.order) ==>
              (LeavesOut(Some(previous), first) <==>
                 Some(i) == previous.active || previous.files[i].offset < previous.files[i].size)
  {
    hide Read, Fits, Polled, Accounted, NewAreNew, AgainFits, AllRead, CursorFits, LeavesOut;
    PolledAt(v, previous, first, cursor, parts, i);
    OneLeftOut(previous, first, i);
  }

  lemma OneLeftOut(previous: Cursor, poll: Poll, i: Inode)
    requires i in previous.files && i !in poll.order
    ensures (forall key :: key in previous.files && key != i ==> key in poll.order) ==>
              (LeavesOut(Some(previous), poll) <==>
                 Some(i) == previous.active || previous.files[i].offset < previous.files[i].size)
  {
  }

  /** A copy of the active file, made before that is truncated, goes on where the reading of it was left;
      the truncated file is read from its beginning, and reported, exactly if its bytes before the
      position are others now. */
  lemma CopyContinues(previous: Cursor, active: Inode, copy: Inode, before: Bytes, content: Bytes, truncated: Bytes,
                      start: (nat, bool), delivered: seq<Bytes>, position: Position, part: seq<Bytes>)
    requires previous.active == Some(active) && active in previous.files && copy !in previous.files && copy != active
    requires before <= content && Fits(before, previous.files[active]) && previous.files[active].offset > 0
    requires var left := previous.files[active]; Read(before, start, (left.offset, left.dropping), delivered)
    requires FileRead(content, Start(Some(previous), Some(active), copy, content, SNAPSHOT_BYTES), position, part)
    ensures Read(content, start, (position.offset, position.dropping), delivered + part)
    ensures Refitted(Entry(active, Stream(truncated, truncated)), Some(active), Some(previous)) <==>
              !Fits(truncated, previous.files[active])
    ensures !Fits(truncated, previous.files[active]) ==>
              Start(Some(previous), Some(active), active, truncated, SNAPSHOT_BYTES) == (0, false)
  {
    hide Read, FileRead, Anchor;
    var left := previous.files[active];
    AnchorStays(before, content, left.offset);
    ReadFurther(before, content, content, start, (left.offset, left.dropping), delivered, position, part);
  }

  /** A rotated file with one line, which was handed out, and an empty active file. */
  function LineRead(line: Bytes): View {
    View([line, []], Some(1), {}, {}, [(0, false), (0, false)], [(2, false), (0, false)], [[line], []], [[], []])
  }

  function BothTracked(line: Bytes): Cursor {
    Cursor(map[0 := Position(2, 2, line, false), 1 := Position(0, 0, [], false)], Some(1))
  }

  function OneTracked(): Cursor {
    Cursor(map[1 := Position(0, 0, [], false)], Some(1))
  }

  function QuietPoll(line: Bytes, order: seq<Inode>): Poll {
    Poll(order, [line, []], [line, []], {}, 1)
  }

  /** A drained file that one listing leaves out, as a rotation between reading the directory and
      looking at its entries can cause: the next poll hands its line out a second time, and neither
      reports anything. */
  lemma RotationRepeats(line: Bytes)
    requires line == [97, NEWLINE]
    ensures var v, both, one := LineRead(line), BothTracked(line), OneTracked();
            var first, second := QuietPoll(line, [1]), QuietPoll(line, [0, 1]);
            && Consistent(v, Some(both)) && Possible(v, first)
            && Answered(v, Some(both), first, one, [[]]) && !LeavesOut(Some(both), first)
            && var w := Polled(v, Some(both), first, one, [[]]);
            && Possible(w, second)
            && Answered(w, Some(one), second, both, [[line], []]) && !LeavesOut(Some(one), second)
            && var after := Polled(w, Some(one), second, both, [[line], []]);
               after.earlier[0] + after.delivered[0] == [line, line] && 0 in after.again
  {
    var v, both, one := LineRead(line), BothTracked(line), OneTracked();
    var first, second := QuietPoll(line, [1]), QuietPoll(line, [0, 1]);
    LineReadConsistent(line);
    FirstAnswer(line, v);
    var w := Polled(v, Some(both), first, one, [[]]);
    PolledAt(v, both, first, one, [[]], 0);
    hide Consistent, Answered, Polled, LeavesOut;
    SecondAnswer(line, w);
    ReadTwice(line, w);
  }

  lemma ReadTwice(line: Bytes, w: View)
    requires Shaped(w) && w.files == [line, []] && w.active == Some(1) && Possible(w, QuietPoll(line, [0, 1]))
    requires w.reached[0] == (2, false) && w.delivered[0] == [line] && w.earlier[0] == []
    ensures var after := Polled(w, Some(OneTracked()), QuietPoll(line, [0, 1]), BothTracked(line), [[line], []]);
            after.earlier[0] + after.delivered[0] == [line, line] && 0 in after.again
  {
    PolledAt(w, OneTracked(), QuietPoll(line, [0, 1]), BothTracked(line), [[line], []], 0);
    hide Polled;
  }

  lemma LineReadConsistent(line: Bytes)
    requires line == [97, NEWLINE]
    ensures Consistent(LineRead(line), Some(BothTracked(line)))
  {
    hide Delivered, Cut;
    ShortLine(line);
    NothingRead();
  }

  lemma FirstAnswer(line: Bytes, v: View)
    requires |v.files| == 2 && v.files == [line, []] && v.active == Some(1)
    ensures var both, one, first := BothTracked(line), OneTracked(), QuietPoll(line, [1]);
            && Possible(v, first) && Answered(v, Some(both), first, one, [[]]) && !LeavesOut(Some(both), first)
  {
    NoLine([]);
    hide Delivered, Cut;
  }

  lemma SecondAnswer(line: Bytes, w: View)
    requires line == [97, NEWLINE] && |w.files| == 2 && w.files == [line, []] && w.active == Some(1)
    ensures var both, one, second := BothTracked(line), OneTracked(), QuietPoll(line, [0, 1]);
            && Possible(w, second)
            && Answered(w, Some(one), second, both, [[line], []]) && !LeavesOut(Some(one), second)
  {
    NoLine([]);
    ShortLine(line);
    hide Delivered, Cut;
  }

  lemma ShortLine(line: Bytes)
    requires line == [97, NEWLINE]
    ensures Read(line, (0, false), (2, false), [line]) && line[0..2] == line
    ensures Delivered(line, false) == [line] && Cut(line, false, false)
  {
    assert line[0..2] == line && line[1] == NEWLINE;
    NewlineIs(line, 1);
    RecordAlone(line);
  }

  /** A poll: the files that it lists, in the order in which the program reads them; what each holds
      when it is opened and when the poll is over; and those that cannot be opened under their listed
      name. A file that an earlier poll did not list may be listed again. */
  datatype Poll = Poll(order: seq<Inode>, found: seq<Bytes>, later: seq<Bytes>, failing: set<Inode>, limit: nat)

  predicate Possible(v: View, poll: Poll) {
    && |poll.found| == |poll.later| == |v.files|
    && (forall i :: 0 <= i < |v.files| ==> v.files[i] <= poll.found[i] <= poll.later[i])
    && (forall k :: 0 <= k < |poll.order| ==> poll.order[k] < |v.files|)
    && (forall j, k :: 0 <= j < k < |poll.order| ==> poll.order[j] != poll.order[k])
    && (v.active.Some? ==> v.active.value in poll.order)
    && |poll.order| <= MAX_FILES && 1 <= poll.limit <= 1000
  }

  function Listed(poll: Poll, k: nat): Entry
    requires k < |poll.order| && poll.order[k] < |poll.found| == |poll.later|
  {
    var i := poll.order[k];
    Entry(i, if i in poll.failing then Missing else Stream(poll.found[i], poll.later[i]))
  }

  function PartOf(order: seq<Inode>, parts: seq<seq<Bytes>>, i: Inode): seq<Bytes>
    requires |parts| == |order|
  {
    if i in order then parts[IndexOf(order, i)] else []
  }

  /** What read_log promises about a poll's listing: see LogCursor.ReadLog. */
  predicate Answered(v: View, previous: Option<Cursor>, poll: Poll, cursor: Cursor, parts: seq<seq<Bytes>>)
    requires Possible(v, poll)
  {
    && |parts| == |poll.order| && cursor.active == v.active
    && (forall k :: 0 <= k < |poll.order| ==> Accounted(Listed(poll, k), v.active, previous, cursor.files, parts[k]))
    && (forall key :: key in cursor.files ==> key in poll.order)
  }

  /** The view after a poll. On the first one, following begins where the positions are; on a later one,
      the files that the cursor has lost are read anew. */
  function Polled(v: View, previous: Option<Cursor>, poll: Poll, cursor: Cursor, parts: seq<seq<Bytes>>): (w: View)
    requires Shaped(v) && Possible(v, poll) && |parts| == |poll.order|
    ensures Shaped(w) && w.files == poll.later && w.active == v.active
  {
    var n := |v.files|;
    var anew := set i: Inode | i < n && previous.Some? && Restarts(v, previous.value, poll, i);
    var reached := seq(n, i requires 0 <= i < n =>
      if i in cursor.files then (cursor.files[i].offset, cursor.files[i].dropping) else v.reached[i]);
    var start := seq(n, i requires 0 <= i < n =>
      if i in anew then Entrance(previous.value, v.active, i, poll.found[i]) else v.start[i]);
    var delivered := seq(n, i requires 0 <= i < n =>
      if i in anew then PartOf(poll.order, parts, i) else v.delivered[i] + PartOf(poll.order, parts, i));
    var earlier := seq(n, i requires 0 <= i < n =>
      if i in anew then v.earlier[i] + v.delivered[i] else v.earlier[i]);
    View(poll.later, v.active,
         v.missed + (set i: Inode | i < n && i !in poll.order),
         v.again + (set i | i in anew && v.earlier[i] + v.delivered[i] != []),
         if previous.None? then reached else start, reached,
         if previous.None? then v.delivered else delivered, earlier)
  }

  /** What that is for one file. */
  lemma PolledAt(v: View, previous: Cursor, poll: Poll, cursor: Cursor, parts: seq<seq<Bytes>>, i: Inode)
    requires Shaped(v) && Possible(v, poll) && |parts| == |poll.order| && i < |v.files|
    ensures var w := Polled(v, Some(previous), poll, cursor, parts);
            var part := PartOf(poll.order, parts, i);
            var anew := Restarts(v, previous, poll, i);
            && w.start[i] == (if anew then Entrance(previous, v.active, i, poll.found[i]) else v.start[i])
            && w.reached[i] == (if i in cursor.files then (cursor.files[i].offset, cursor.files[i].dropping)
                                else v.reached[i])
            && w.delivered[i] == (if anew then [] else v.delivered[i]) + part
            && w.earlier[i] == (if anew then v.earlier[i] + v.delivered[i] else v.earlier[i])
            && (i in w.missed <==> i in v.missed || i !in poll.order)
            && (i in w.again <==> i in v.again || (anew && v.earlier[i] + v.delivered[i] != []))
  {
    hide Restarts, Entrance, PartOf;
    var part := PartOf(poll.order, parts, i);
    assert [] + part == part;
  }

  /** A poll extends what was handed out of one file by what is next in it, or reads it anew. */
  lemma FileFollows(v: View, previous: Cursor, poll: Poll, cursor: Cursor, parts: seq<seq<Bytes>>, i: Inode)
    requires Consistent(v, Some(previous)) && Possible(v, poll) && i < |v.files|
    requires Answered(v, Some(previous), poll, cursor, parts)
    ensures Followed(v, previous, poll, cursor, Polled(v, Some(previous), poll, cursor, parts), i)
  {
    hide Followed;
    if i in poll.order && i !in poll.failing {
      FileOpened(v, previous, poll, cursor, parts, i);
    } else {
      FileLeft(v, previous, poll, cursor, parts, i);
    }
  }

  predicate Followed(v: View, previous: Cursor, poll: Poll, cursor: Cursor, w: View, i: Inode)
    requires Possible(v, poll) && Shaped(w) && i < |v.files| == |w.files|
  {
    && Read(w.files[i], w.start[i], w.reached[i], w.delivered[i])
    && (i in cursor.files ==> Fits(w.files[i], cursor.files[i]))
    && (i in poll.order && i !in cursor.files ==> i in poll.failing && i !in previous.files)
    && (i in poll.order ==> var e := Listed(poll, IndexOf(poll.order, i));
          && !Refitted(e, v.active, Some(previous))
          && (Finished(e, cursor.files) ==>
               w.start[i].0 <= |poll.found[i]| &&
               w.delivered[i] == Delivered(poll.found[i][w.start[i].0..], w.start[i].1)))
  }

  lemma FileOpened(v: View, previous: Cursor, poll: Poll, cursor: Cursor, parts: seq<seq<Bytes>>, i: Inode)
    requires Consistent(v, Some(previous)) && Possible(v, poll) && i in poll.order && i !in poll.failing
    requires Answered(v, Some(previous), poll, cursor, parts)
    ensures Followed(v, previous, poll, cursor, Polled(v, Some(previous), poll, cursor, parts), i)
  {
    PolledAt(v, previous, poll, cursor, parts, i);
    hide Read, FileRead, Drained, Delivered, Restarts, Entrance, Polled, Start, Fits, Refitted, CursorFits, NewAreNew;
    var k := IndexOf(poll.order, i);
    assert Accounted(Listed(poll, k), v.active, Some(previous), cursor.files, parts[k]);
    NeverRefitted(v, previous, poll, i);
    OpenedReads(v, previous, poll, cursor.files[i], parts[k], i);
  }

  /** What is read of an opened file continues its reading, or begins another. */
  lemma OpenedReads(v: View, previous: Cursor, poll: Poll, position: Position, part: seq<Bytes>, i: Inode)
    requires Consistent(v, Some(previous)) && Possible(v, poll) && i in poll.order && i !in poll.failing
    requires FileRead(poll.found[i], Start(Some(previous), v.active, i, poll.found[i], SNAPSHOT_BYTES), position, part)
    ensures Fits(poll.later[i], position)
    ensures var anew := Restarts(v, previous, poll, i);
            var start := if anew then Entrance(previous, v.active, i, poll.found[i]) else v.start[i];
            var had := if anew then [] else v.delivered[i];
            && Read(poll.later[i], start, (position.offset, position.dropping), had + part)
            && start.0 <= |poll.found[i]|
            && (Drained(poll.found[i], position) ==> had + part == Delivered(poll.found[i][start.0..], start.1))
  {
    RestartsIff(v, previous, poll, i);
    assert Read(v.files[i], v.start[i], v.reached[i], v.delivered[i]) && v.start[i].0 <= |v.files[i]|;
    hide *;
    var content := poll.found[i];
    var from := Start(Some(previous), v.active, i, content, SNAPSHOT_BYTES);
    if Restarts(v, previous, poll, i) {
      ReadNothing(content, from);
      ReadFurther(content, content, poll.later[i], from, from, [], position, part);
    } else {
      ReadFurther(v.files[i], content, poll.later[i], v.start[i], from, v.delivered[i], position, part);
    }
  }

  lemma NeverRefitted(v: View, previous: Cursor, poll: Poll, i: Inode)
    requires Consistent(v, Some(previous)) && Possible(v, poll) && i in poll.order
    ensures !Refitted(Listed(poll, IndexOf(poll.order, i)), v.active, Some(previous))
  {
    hide Read, Anchor;
    if i in previous.files { ResumesWhereLeft(previous, v.active, i, v.files[i], poll.found[i]); }
  }

  lemma FileLeft(v: View, previous: Cursor, poll: Poll, cursor: Cursor, parts: seq<seq<Bytes>>, i: Inode)
    requires Consistent(v, Some(previous)) && Possible(v, poll) && i < |v.files|
    requires Answered(v, Some(previous), poll, cursor, parts) && (i in poll.order ==> i in poll.failing)
    ensures Followed(v, previous, poll, cursor, Polled(v, Some(previous), poll, cursor, parts), i)
  {
    PolledAt(v, previous, poll, cursor, parts, i);
    PartLeft(v, Some(previous), poll, cursor, parts, i);
    FileStill(v, previous, poll, i);
    hide Read, Fits, Delivered, Entrance, Polled, Accounted, PartOf;
    assert v.delivered[i] + [] == v.delivered[i];
  }

  /** A file that a poll did not open contributes nothing and keeps its position, if it is listed. */
  lemma PartLeft(v: View, previous: Option<Cursor>, poll: Poll, cursor: Cursor, parts: seq<seq<Bytes>>, i: Inode)
    requires Possible(v, poll) && Answered(v, previous, poll, cursor, parts)
    requires i < |v.files| && (i in poll.order ==> i in poll.failing)
    ensures PartOf(poll.order, parts, i) == []
    ensures i in cursor.files <==> i in poll.order && Tracked(previous, i)
    ensures i in cursor.files ==> cursor.files[i] == previous.value.files[i]
  {
    hide FileRead, Start;
    if i in poll.order {
      var k := IndexOf(poll.order, i);
      assert Accounted(Listed(poll, k), v.active, previous, cursor.files, parts[k]);
    }
  }

  lemma FileStill(v: View, previous: Cursor, poll: Poll, i: Inode)
    requires Consistent(v, Some(previous)) && Possible(v, poll) && i < |v.files|
    ensures Read(poll.later[i], v.start[i], v.reached[i], v.delivered[i])
    ensures i in previous.files ==> Fits(poll.later[i], previous.files[i])
    ensures i in previous.files ==> v.reached[i] == (previous.files[i].offset, previous.files[i].dropping)
  {
    hide Delivered, Cut, Anchor;
    StillRead(v.files[i], poll.later[i], v.start[i], v.reached[i], v.delivered[i]);
    if i in previous.files { AnchorStays(v.files[i], poll.later[i], previous.files[i].offset); }
  }

  lemma ReadNothing(content: Bytes, from: (nat, bool))
    requires from.0 <= |content|
    ensures Read(content, from, from, [])
  {
    NothingYet(from.1);
    assert content[from.0..from.0] == [];
  }

  /** The first poll only decides where following begins. */
  lemma FileBegins(v: View, poll: Poll, cursor: Cursor, parts: seq<seq<Bytes>>, i: Inode)
    requires Consistent(v, None) && Possible(v, poll) && Answered(v, None, poll, cursor, parts) && i < |v.files|
    ensures var w := Polled(v, None, poll, cursor, parts);
            && Read(w.files[i], w.start[i], w.reached[i], w.delivered[i])
            && (i in cursor.files ==> Fits(w.files[i], cursor.files[i]))
            && (i in poll.order && i !in cursor.files ==> i in poll.failing)
  {
    hide Read, FileRead, Fits, Start, Finished, Refitted;
    assert Read(v.files[i], (0, false), (0, false), v.delivered[i]);
    if i in poll.order {
      var k := IndexOf(poll.order, i);
      assert Accounted(Listed(poll, k), v.active, None, cursor.files, parts[k]);
      if i !in poll.failing {
        var start := Start(None, v.active, i, poll.found[i], SNAPSHOT_BYTES);
        BeginsAt(v.files[i], poll.found[i], poll.later[i], start, cursor.files[i], parts[k], v.delivered[i]);
        return;
      }
    }
    StillRead(v.files[i], poll.later[i], (0, false), (0, false), v.delivered[i]);
  }

  lemma BeginsAt(before: Bytes, content: Bytes, later: Bytes, start: (nat, bool), position: Position, part: seq<Bytes>,
                 delivered: seq<Bytes>)
    requires Read(before, (0, false), (0, false), delivered) && content <= later &&
               FileRead(content, start, position, part)
    ensures var at := (position.offset, position.dropping); Read(later, at, at, delivered) && Fits(later, position)
  {
    hide Delivered, Cut, Anchor;
    NothingYet(false);
    NothingYet(position.dropping);
    AnchorStays(content, later, position.offset);
    assert before[0..0] == [] && later[position.offset..position.offset] == [];
  }

  /** One call of read_log, and what it means for the files. */
  method Request(v: View, cursor: Option<Cursor>, active: Option<Inode>, poll: Poll)
    returns (r: Reply, parts: seq<seq<Bytes>>)
    requires Consistent(v, cursor) && Possible(v, poll) && v.active == active && (cursor.Some? || active.Some?)
    ensures r.Reply? && |parts| == |poll.order| && Possible(v, poll)
    ensures var w := Polled(v, cursor, poll, r.cursor, parts);
            && (cursor.Some? ==> Onward(v, w))
            && Consistent(w.(active := None), Some(r.cursor))
            && Consistent(w.(missed := w.missed + Unknown(w, cursor, poll)), Some(r.cursor))
            && (cursor.Some? && !r.more ==> forall k :: 0 <= k < |poll.order| ==> AllHandedOut(w, poll, poll.order[k]))
    ensures cursor.Some? ==> r.records == Flatten(parts) && |r.records| <= poll.limit
    ensures cursor.None? ==> FirstShown(poll, active, r.records, parts)
    ensures r.reset <==> LeavesOut(cursor, poll)
  {
    assert Listable(poll);
    var listing := Listing(poll);
    ListingFits(v, poll);
    hide *;
    r, parts := ReadLog(listing, active, cursor, poll.limit);
    AnswerOf(v, cursor, poll, r, parts);
    if cursor.None? { FirstOf(poll, active, listing, r.records, parts); }
    PollConsistent(v, cursor, poll, r.cursor, parts);
    PollReports(v, cursor, poll, listing, r, parts);
    if cursor.Some? { PolledOnward(v, cursor.value, poll, r.cursor, parts); }
  }

  /** The first poll gives the last records, MAX_INITIAL_RECORDS or as many as there are, of what a new
      view shows of the listed files. */
  predicate FirstShown(poll: Poll, active: Option<Inode>, records: seq<Bytes>, parts: seq<seq<Bytes>>) {
    && |parts| == |poll.order| && Listable(poll)
    && IsEnd(records, Flatten(parts)) && |records| == Initial(|Flatten(parts)|)
    && forall k :: 0 <= k < |poll.order| ==> Shown(Listed(poll, k), active, parts[k])
  }

  lemma FirstOf(poll: Poll, active: Option<Inode>, listing: seq<Entry>, records: seq<Bytes>, parts: seq<seq<Bytes>>)
    requires Listable(poll) && listing == Listing(poll) && |parts| == |poll.order|
    requires IsEnd(records, Flatten(parts)) && |records| == Initial(|Flatten(parts)|)
    requires forall k :: 0 <= k < |listing| ==> Shown(listing[k], active, parts[k])
    ensures FirstShown(poll, active, records, parts)
  {
    hide Shown, IsEnd, Flatten;
    forall k | 0 <= k < |poll.order| ensures Shown(Listed(poll, k), active, parts[k]) {
      assert Shown(listing[k], active, parts[k]);
    }
  }

  function Listing(poll: Poll): (listing: seq<Entry>)
    requires Listable(poll)
    ensures |listing| == |poll.order| && forall k :: 0 <= k < |listing| ==> listing[k] == Listed(poll, k)
  {
    seq(|poll.order|, k requires 0 <= k < |poll.order| => Listed(poll, k))
  }

  lemma ListingFits(v: View, poll: Poll)
    requires Possible(v, poll) && Listable(poll)
    ensures var listing := Listing(poll);
            && Distinct(listing) && |listing| <= MAX_FILES && 1 <= poll.limit <= 1000
            && forall i :: 0 <= i < |listing| && listing[i].found.Stream? ==>
                 listing[i].found.content <= listing[i].found.later
  {
  }

  lemma AnswerOf(v: View, previous: Option<Cursor>, poll: Poll, r: Reply, parts: seq<seq<Bytes>>)
    requires Possible(v, poll) && Listable(poll) && r.Reply? && r.cursor.active == v.active && |parts| == |poll.order|
    requires forall k :: 0 <= k < |poll.order| ==>
               Accounted(Listing(poll)[k], v.active, previous, r.cursor.files, parts[k])
    requires forall key :: key in r.cursor.files ==> exists k :: 0 <= k < |poll.order| && Listing(poll)[k].inode == key
    ensures Answered(v, previous, poll, r.cursor, parts)
  {
    hide Accounted;
    forall k | 0 <= k < |poll.order|
      ensures Accounted(Listed(poll, k), v.active, previous, r.cursor.files, parts[k])
    {
      assert Accounted(Listing(poll)[k], v.active, previous, r.cursor.files, parts[k]);
    }
    forall key | key in r.cursor.files ensures key in poll.order {
      var k :| 0 <= k < |poll.order| && Listing(poll)[k].inode == key;
      assert poll.order[k] == key;
    }
  }

  /** The files that the poll could neither open nor knew. */
  function Unknown(w: View, previous: Option<Cursor>, poll: Poll): set<Inode> {
    set i: Inode | i < |w.files| && i in poll.failing && !Tracked(previous, i)
  }

  /** The poll leaves out the file that was active, or one with more to read than its cursor had reached. */
  predicate LeavesOut(previous: Option<Cursor>, poll: Poll) {
    && previous.Some?
    && exists key :: key in previous.value.files && key !in poll.order
                     && (Some(key) == previous.value.active ||
                          previous.value.files[key].offset < previous.value.files[key].size)
  }

  predicate Listable(poll: Poll) {
    |poll.found| == |poll.later| && forall k :: 0 <= k < |poll.order| ==> poll.order[k] < |poll.found|
  }

  class Follower {
    var files: seq<Bytes>
    var active: Option<Inode>
    var cursor: Option<Cursor>
    var missed: set<Inode>
    var again: set<Inode>
    var start: seq<(nat, bool)>
    var reached: seq<(nat, bool)>
    var delivered: seq<seq<Bytes>>
    var earlier: seq<seq<Bytes>>

    function Seen(): View
      reads this
    {
      View(files, active, missed, again, start, reached, delivered, earlier)
    }

    ghost predicate Valid()
      reads this
    {
      Consistent(Seen(), cursor)
    }

    constructor ()
      ensures Valid() && files == [] && cursor.None? && active.None? && again == {}
    {
      files, active, cursor := [], None, None;
      missed, again, start, reached, delivered, earlier := {}, {}, [], [], [], [];
    }

    /** Somebody writes to a file, the active one or one already renamed. */
    method Append(i: Inode, bytes: Bytes)
      requires Valid() && i < |files|
      modifies this`files
      ensures Valid() && files == old(files)[i := old(files)[i] + bytes] && Onward(old(Seen()), Seen())
    {
      Grow(Seen(), files[i := files[i] + bytes], cursor);
      files := files[i := files[i] + bytes];
    }

    /** A poll, during which a rotation may begin and take place. The caller is handed, of every
        listed file, what is next in it, or its beginning if it is read anew; and once a poll does not
        ask for another one, everything that was complete. A file counts as lost exactly if it is no
        longer listed, and was active or not read to its end: not if it was read to its end. */
    method PollOnce(poll: Poll, rotation: Option<bool>) returns (r: Reply, parts: seq<seq<Bytes>>)
      requires Valid() && Possible(Seen(), poll) && (cursor.Some? || active.Some?)
      modifies this
      ensures Valid() && r.Reply? && cursor == Some(r.cursor) && |parts| == |poll.order|
      ensures var w := Polled(old(Seen()), old(cursor), poll, r.cursor, parts);
              Seen() == Settled(w, Unknown(w, old(cursor), poll), rotation)
      ensures old(cursor).Some? ==> r.records == Flatten(parts) && |r.records| <= poll.limit
      ensures old(cursor).None? ==> FirstShown(poll, old(active), r.records, parts)
      ensures old(cursor).Some? && !r.more ==>
                var w := Polled(old(Seen()), old(cursor), poll, r.cursor, parts);
                forall k :: 0 <= k < |poll.order| ==> AllHandedOut(w, poll, poll.order[k])
      ensures r.reset <==> LeavesOut(old(cursor), poll)
      ensures old(cursor).Some? ==> Onward(old(Seen()), Seen())
    {
      var v, previous := Seen(), cursor;
      r, parts := Request(v, cursor, active, poll);
      hide *;
      var w := Polled(v, previous, poll, r.cursor, parts);
      if previous.Some? { SettledOnward(v, w, Unknown(w, previous, poll), rotation); }
      SettledConsistent(w, Unknown(w, previous, poll), Some(r.cursor), rotation);
      Become(Settled(w, Unknown(w, previous, poll), rotation), Some(r.cursor));
    }

    method Become(t: View, c: Option<Cursor>)
      requires Consistent(t, c)
      modifies this
      ensures Valid() && Seen() == t && cursor == c
    {
      files, active, cursor, missed, again := t.files, t.active, c, t.missed, t.again;
      start, reached, delivered, earlier := t.start, t.reached, t.delivered, t.earlier;
    }

    /** The active file is renamed, and a new one may be created at once. */
    method Rotate(create: bool)
      requires Valid()
      modifies this
      ensures Valid() && Seen() == Rotated(old(Seen()), create) && cursor == old(cursor)
      ensures Onward(old(Seen()), Seen())
    {
      RotatedConsistent(Seen(), cursor, create);
      Become(Rotated(Seen(), create), cursor);
    }

    /** Over any interleaving of appends, rotations and polls with any listings and limits: what was
        handed out of each file since its reading began, and what is still to come of it, are exactly
        its complete short lines from there on, each once and in order. Everything that was ever handed
        out of the file is that, if and only if no poll read it anew after something was handed out of
        it; and that happens only to files that some poll has missed. The reading of any other file
        begins where it began after the first poll, or at the beginning of a file that is new. */
    method Follow(events: seq<Event>)
      requires Valid()
      modifies this
      ensures Valid()
      ensures forall i :: 0 <= i < |files| ==> start[i].0 <= reached[i].0 <= |files[i]|
      ensures forall i :: 0 <= i < |files| ==> delivered[i] + Coming(Seen(), i) == Lines(Seen(), i)
      ensures forall i :: 0 <= i < |files| ==>
                (earlier[i] + delivered[i] + Coming(Seen(), i) == Lines(Seen(), i) <==> i !in again)
      ensures again <= missed
      ensures old(cursor).Some? ==> Onward(old(Seen()), Seen())
    {
      ghost var v := Seen();
      for k := 0 to |events|
        invariant Valid() && (old(cursor).Some? ==> cursor.Some? && Onward(v, Seen()))
      {
        ghost var w := Seen();
        hide *;
        match events[k] {
          case Written(i, bytes) => if i < |files| { Append(i, bytes); }
          case Rotation(create) => Rotate(create);
          case Polling(poll, rotation) =>
            if Possible(Seen(), poll) && (cursor.Some? || active.Some?) {
              var r, parts := PollOnce(poll, rotation);
            }
        }
        if old(cursor).Some? { OnwardOn(v, w, Seen()); }
      }
      assert Shaped(Seen());
      FollowedAll(Seen(), cursor);
    }
  }

  /** A file that was not missed goes on being read from where its reading began, a new one from its
      beginning. */
  predicate Onward(v: View, w: View) {
    && |v.start| <= |w.start| && v.missed <= w.missed
    && forall i :: 0 <= i < |w.start| && i !in w.missed ==>
         w.start[i] == if i < |v.start| then v.start[i] else (0, false)
  }

  lemma OnwardOn(v: View, w: View, x: View)
    ensures Onward(w, w)
    ensures Onward(v, w) && Onward(w, x) ==> Onward(v, x)
  {
  }

  lemma PolledOnward(v: View, previous: Cursor, poll: Poll, cursor: Cursor, parts: seq<seq<Bytes>>)
    requires Consistent(v, Some(previous)) && Possible(v, poll) && |parts| == |poll.order|
    ensures Onward(v, Polled(v, Some(previous), poll, cursor, parts))
  {
    var w := Polled(v, Some(previous), poll, cursor, parts);
    assert v.missed <= w.missed;
    forall i | 0 <= i < |w.start| && i !in w.missed ensures w.start[i] == v.start[i] {
      PolledAt(v, previous, poll, cursor, parts, i);
      if Restarts(v, previous, poll, i) { OnlyMissedRestart(v, previous, poll, i); }
    }
  }

  lemma SettledOnward(v: View, w: View, unknown: set<Inode>, rotation: Option<bool>)
    requires Onward(v, w)
    ensures Onward(v, Settled(w, unknown, rotation))
  {
  }

  /** The complete short lines of a file since its reading began ... */
  function Lines(v: View, i: Inode): seq<Bytes>
    requires Shaped(v) && i < |v.files| && v.start[i].0 <= |v.files[i]|
  {
    Delivered(v.files[i][v.start[i].0..], v.start[i].1)
  }

  /** ... and those behind where reading goes on. */
  function Coming(v: View, i: Inode): seq<Bytes>
    requires Shaped(v) && i < |v.files| && v.reached[i].0 <= |v.files[i]|
  {
    Delivered(v.files[i][v.reached[i].0..], v.reached[i].1)
  }

  datatype Event =
    | Written(i: Inode, bytes: Bytes)
    | Rotation(create: bool)
    | Polling(poll: Poll, rotation: Option<bool>)

  predicate FileStays(previous: Option<Cursor>, poll: Poll, cursor: Cursor, w: View, i: Inode)
    requires Shaped(w) && i < |w.files|
  {
    && Read(w.files[i], w.start[i], w.reached[i], w.delivered[i])
    && (i in cursor.files ==> Fits(w.files[i], cursor.files[i])
                              && w.reached[i] == (cursor.files[i].offset, cursor.files[i].dropping))
    && (i !in w.missed && i !in cursor.files ==> && i in poll.failing && !Tracked(previous, i)
                                                 && w.start[i] == w.reached[i] == (0, false))
    && (i in w.again <==> w.earlier[i] != []) && (i in w.again ==> i in w.missed)
  }

  lemma EachFileStays(v: View, previous: Option<Cursor>, poll: Poll, cursor: Cursor, parts: seq<seq<Bytes>>, i: Inode)
    requires Consistent(v, previous) && Possible(v, poll) && Answered(v, previous, poll, cursor, parts)
    requires i < |v.files|
    ensures FileStays(previous, poll, cursor, Polled(v, previous, poll, cursor, parts), i)
  {
    hide Read, Fits, Delivered, Finished, Refitted, Accounted, Entrance;
    if previous.Some? {
      FileFollows(v, previous.value, poll, cursor, parts, i);
      if Restarts(v, previous.value, poll, i) { OnlyMissedRestart(v, previous.value, poll, i); }
    } else {
      FileBegins(v, poll, cursor, parts, i);
    }
  }

  /** After a poll everything is consistent again, if the files that it could neither open nor knew
      count as missed; or, without that, once the rotation that caused it is over. */
  lemma PollConsistent(v: View, previous: Option<Cursor>, poll: Poll, cursor: Cursor, parts: seq<seq<Bytes>>)
    requires Consistent(v, previous) && Possible(v, poll) && Answered(v, previous, poll, cursor, parts)
    ensures var w := Polled(v, previous, poll, cursor, parts);
            && Consistent(w.(active := None), Some(cursor))
            && Consistent(w.(missed := w.missed + Unknown(w, previous, poll)), Some(cursor))
  {
    var w := Polled(v, previous, poll, cursor, parts);
    assert Shaped(w) && (cursor.active.Some? ==> cursor.active.value < |w.files|);
    assert forall key :: key in cursor.files ==> key < |w.files|;
    forall i: Inode | i < |w.files| ensures FileStays(previous, poll, cursor, w, i) {
      EachFileStays(v, previous, poll, cursor, parts, i);
    }
    Assemble(previous, poll, cursor, w);
  }

  lemma Assemble(previous: Option<Cursor>, poll: Poll, cursor: Cursor, w: View)
    requires Shaped(w) && (cursor.active.Some? ==> cursor.active.value < |w.files|)
    requires forall key :: key in cursor.files ==> key < |w.files|
    requires forall i: Inode :: i < |w.files| ==> FileStays(previous, poll, cursor, w, i)
    ensures Consistent(w.(active := None), Some(cursor))
    ensures Consistent(w.(missed := w.missed + Unknown(w, previous, poll)), Some(cursor))
  {
    hide Read, Fits;
    forall i: Inode | i < |w.files|
      ensures Read(w.files[i], w.start[i], w.reached[i], w.delivered[i])
      ensures i in cursor.files ==> Fits(w.files[i], cursor.files[i])
      ensures i in cursor.files ==> w.reached[i] == (cursor.files[i].offset, cursor.files[i].dropping)
      ensures i !in w.missed && !Tracked(Some(cursor), i) ==> i in Unknown(w, previous, poll)
      ensures i !in w.missed && !Tracked(Some(cursor), i) ==> w.start[i] == w.reached[i] == (0, false)
      ensures (i in w.again <==> w.earlier[i] != []) && (i in w.again ==> i in w.missed)
    {
      assert FileStays(previous, poll, cursor, w, i);
    }
    assert w.again <= w.missed;
  }

  /** The complete short lines of file i when it was opened have all been handed out. */
  predicate AllHandedOut(w: View, poll: Poll, i: Inode)
    requires i < |w.files| && Shaped(w) && |poll.found| == |w.files|
  {
    w.start[i].0 <= |poll.found[i]| && w.delivered[i] == Delivered(poll.found[i][w.start[i].0..], w.start[i].1)
  }

  lemma PollReports(v: View, previous: Option<Cursor>, poll: Poll, listing: seq<Entry>, r: Reply,
                    parts: seq<seq<Bytes>>)
    requires Consistent(v, previous) && Possible(v, poll) && r.Reply? && Answered(v, previous, poll, r.cursor, parts)
    requires |listing| == |poll.order| && forall k :: 0 <= k < |listing| ==> listing[k] == Listed(poll, k)
    requires !r.more ==> forall k :: 0 <= k < |listing| ==> Finished(listing[k], r.cursor.files)
    requires r.reset <==> Lost(listing, previous) || exists k ::
               0 <= k < |listing| && Refitted(listing[k], v.active, previous)
    ensures previous.Some? && !r.more ==> var w := Polled(v, previous, poll, r.cursor, parts);
              Shaped(w) && forall k :: 0 <= k < |poll.order| ==> AllHandedOut(w, poll, poll.order[k])
    ensures r.reset <==> LeavesOut(previous, poll)
  {
    hide AllHandedOut, Finished, Accounted;
    if previous.Some? {
      forall k | 0 <= k < |poll.order|
        ensures !Refitted(listing[k], v.active, previous)
        ensures !r.more ==> AllHandedOut(Polled(v, previous, poll, r.cursor, parts), poll, poll.order[k])
      {
        PollFinishes(v, previous.value, poll, r.cursor, parts, k);
      }
    }
    LostIff(previous, poll, listing);
  }

  lemma LostIff(previous: Option<Cursor>, poll: Poll, listing: seq<Entry>)
    requires |listing| == |poll.order| && forall k :: 0 <= k < |listing| ==> listing[k].inode == poll.order[k]
    ensures Lost(listing, previous) <==> LeavesOut(previous, poll)
  {
    if previous.Some? {
      forall key ensures Unlisted(listing, key) <==> key !in poll.order {
        if Unlisted(listing, key) {
          forall k | 0 <= k < |poll.order| ensures poll.order[k] != key {
            assert listing[k].inode == poll.order[k];
          }
        }
      }
    }
  }

  /** What a poll that wants no more has handed out: everything that was there. */
  lemma PollFinishes(v: View, previous: Cursor, poll: Poll, cursor: Cursor, parts: seq<seq<Bytes>>, k: nat)
    requires Consistent(v, Some(previous)) && Possible(v, poll) && Answered(v, Some(previous), poll, cursor, parts)
    requires k < |poll.order|
    ensures !Refitted(Listed(poll, k), v.active, Some(previous))
    ensures Finished(Listed(poll, k), cursor.files) ==>
              AllHandedOut(Polled(v, Some(previous), poll, cursor, parts), poll, poll.order[k])
  {
    hide Fits, Delivered, Accounted;
    assert Read(v.files[poll.order[k]], v.start[poll.order[k]], v.reached[poll.order[k]], v.delivered[poll.order[k]]);
    hide Read;
    assert IndexOf(poll.order, poll.order[k]) == k;
    FileFollows(v, previous, poll, cursor, parts, poll.order[k]);
  }

  function Rotated(v: View, create: bool): View {
    if create then
      v.(files := v.files + [[]], active := Some(|v.files|),
         start := v.start + [(0, false)], reached := v.reached + [(0, false)],
         delivered := v.delivered + [[]], earlier := v.earlier + [[]])
    else v.(active := None)
  }

  /** A file that a poll could neither open nor knew is met under its new name after a rotation, and
      counts as missed without one. */
  function Settled(v: View, unknown: set<Inode>, rotation: Option<bool>): View {
    if rotation.Some? then Rotated(v, rotation.value) else v.(missed := v.missed + unknown)
  }

  lemma RotatedConsistent(v: View, cursor: Option<Cursor>, create: bool)
    requires Shaped(v) && Consistent(v.(active := None), cursor)
    ensures Consistent(Rotated(v, create), cursor)
  {
    hide Fits, Read;
    NothingRead();
  }

  lemma SettledConsistent(v: View, unknown: set<Inode>, cursor: Option<Cursor>, rotation: Option<bool>)
    requires Shaped(v) && Consistent(v.(active := None), cursor)
    requires Consistent(v.(missed := v.missed + unknown), cursor)
    ensures Consistent(Settled(v, unknown, rotation), cursor)
  {
    hide Consistent, Rotated;
    if rotation.Some? { RotatedConsistent(v, cursor, rotation.value); }
  }

  /** Appending to files changes nothing of what was handed out and of where to read on. */
  lemma Grow(v: View, later: seq<Bytes>, cursor: Option<Cursor>)
    requires Consistent(v, cursor)
    requires |later| == |v.files| && forall i :: 0 <= i < |v.files| ==> v.files[i] <= later[i]
    ensures Consistent(v.(files := later), cursor)
  {
    hide Read, Anchor;
    forall i | 0 <= i < |v.files| ensures Read(later[i], v.start[i], v.reached[i], v.delivered[i]) {
      StillRead(v.files[i], later[i], v.start[i], v.reached[i], v.delivered[i]);
    }
    if cursor.Some? {
      forall key | key in cursor.value.files ensures Fits(later[key], cursor.value.files[key]) {
        AnchorStays(v.files[key], later[key], cursor.value.files[key].offset);
      }
    }
  }

  lemma NothingRead()
    ensures Read([], (0, false), (0, false), [])
  {
  }

  lemma StillRead(before: Bytes, content: Bytes, start: (nat, bool), reached: (nat, bool), delivered: seq<Bytes>)
    requires before <= content && Read(before, start, reached, delivered)
    ensures Read(content, start, reached, delivered)
  {
    assert content[start.0..reached.0] == before[start.0..reached.0];
  }

  /** At every moment of following, the reader of each file has had exactly the complete short lines
      from where its reading began to where it is, each once and in order; the others are still to
      come. That is all it ever had, exactly if it was not read anew after it had something. */
  lemma FollowedExactly(v: View, cursor: Option<Cursor>, i: Inode)
    requires Consistent(v, cursor) && i < |v.files|
    ensures v.start[i].0 <= v.reached[i].0 <= |v.files[i]|
    ensures v.delivered[i] + Coming(v, i) == Lines(v, i)
    ensures v.earlier[i] + v.delivered[i] + Coming(v, i) == Lines(v, i) <==> i !in v.again
  {
    hide Delivered, Cut, Complete;
    assert Read(v.files[i], v.start[i], v.reached[i], v.delivered[i]);
    Exactly(v.files[i], v.start[i], v.reached[i], v.delivered[i]);
    assert |v.earlier[i] + v.delivered[i] + Coming(v, i)| == |v.earlier[i]| + |Lines(v, i)|;
    if v.earlier[i] == [] { assert v.earlier[i] + v.delivered[i] == v.delivered[i]; }
  }

  lemma FollowedAll(v: View, cursor: Option<Cursor>)
    requires Shaped(v) && Consistent(v, cursor)
    ensures forall i :: 0 <= i < |v.files| ==> v.start[i].0 <= v.reached[i].0 <= |v.files[i]|
    ensures forall i :: 0 <= i < |v.files| ==> v.delivered[i] + Coming(v, i) == Lines(v, i)
    ensures forall i :: 0 <= i < |v.files| ==>
              (v.earlier[i] + v.delivered[i] + Coming(v, i) == Lines(v, i) <==> i !in v.again)
  {
    hide Lines, Coming, Consistent;
    forall i: Inode | i < |v.files|
      ensures v.start[i].0 <= v.reached[i].0 <= |v.files[i]|
      ensures v.delivered[i] + Coming(v, i) == Lines(v, i)
      ensures v.earlier[i] + v.delivered[i] + Coming(v, i) == Lines(v, i) <==> i !in v.again
    {
      FollowedExactly(v, cursor, i);
    }
  }

  /** Polling one unchanging file for as long as the answer asks for it comes to an end, whatever
      the record limit, and hands out every complete short line: the byte budget of a poll exceeds
      the length of a line that may be delivered. */
  method DrainFile(content: Bytes, position: Position, limit: nat) returns (records: seq<Bytes>, end: Position)
    requires Fits(content, position) && 1 <= limit <= 1000
    ensures records == Delivered(content[position.offset..], position.dropping)
    ensures Fits(content, end) && Drained(content, end)
  {
    ghost var start := (position.offset, position.dropping);
    records, end := [], position;
    assert content[start.0..start.0] == [];
    NothingYet(start.1);
    var more := true;
    while more
      invariant Fits(content, end) && Read(content, start, (end.offset, end.dropping), records)
      invariant !more ==> Drained(content, end)
      decreases |content| - end.offset, more
    {
      var listing := [Entry(0, Stream(content, content))];
      var previous := Cursor(map[0 := end], Some(0));
      var r, parts := ReadLog(listing, Some(0), Some(previous), limit);
      assert Accounted(listing[0], Some(0), Some(previous), r.cursor.files, parts[0]);
      ResumesWhereLeft(previous, Some(0), 0, content, content);
      ReadFurther(content, content, content, start, (end.offset, end.dropping), records, r.cursor.files[0], parts[0]);
      OnePart(parts);
      assert !r.more ==> Finished(listing[0], r.cursor.files);
      records, end, more := records + r.records, r.cursor.files[0], r.more;
    }
    Exactly(content, start, (end.offset, end.dropping), records);
  }

  lemma NothingYet(dropping: bool)
    ensures Delivered([], dropping) == [] && Cut([], dropping, dropping)
  {
  }

  lemma OnePart(parts: seq<seq<Bytes>>)
    requires |parts| == 1
    ensures Flatten(parts) == parts[0]
  {
    assert Flatten(parts) == Flatten(parts[..0]) + parts[0];
  }
}
