/** Whether polling comes to an end (app/scripts/log_reader.py).

    A poll reads FOLLOW_BYTES of all listed files together, in their order. A line that has not ended
    is read again at every poll, and not consumed. */
module LogDrain {
  import opened Outcomes
  import opened Bytes
  import opened LogLines
  import opened LogCursor
  import opened LogFollower

  /** Files that do not change, listed in this order. */
  function Still(contents: seq<Bytes>): (files: seq<Entry>)
    ensures |files| == |contents| && Distinct(files) && AllOpened(files)
    ensures forall i :: 0 <= i < |files| ==> files[i] == Entry(i, Stream(contents[i], contents[i]))
  {
    seq(|contents|, i requires 0 <= i < |contents| => Entry(i, Stream(contents[i], contents[i])))
  }

  function At(positions: seq<Position>, active: Option<Inode>): (c: Cursor)
    ensures c.active == active && forall i :: i in c.files <==> 0 <= i < |positions|
    ensures forall i :: i in c.files ==> c.files[i] == positions[i]
  {
    Cursor(map i: Inode | i < |positions| :: positions[i], active)
  }

  predicate AllFit(contents: seq<Bytes>, positions: seq<Position>) {
    |contents| == |positions| && forall i :: 0 <= i < |contents| ==> Fits(contents[i], positions[i])
  }

  predicate HandedOut(contents: seq<Bytes>, from: seq<Position>, to: seq<Position>, records: seq<seq<Bytes>>) {
    && |contents| == |from| == |to| == |records|
    && forall i :: 0 <= i < |contents| ==>
         Read(contents[i], (from[i].offset, from[i].dropping), (to[i].offset, to[i].dropping), records[i])
  }

  /** How much of the files is behind the positions. */
  function Left(contents: seq<Bytes>, positions: seq<Position>): nat
    requires AllFit(contents, positions)
  {
    if contents == [] then 0
    else
      var n := |contents| - 1;
      assert Fits(contents[n], positions[n]) && contents[..n] == contents[..n] && AllFit(contents[..n], positions[..n]);
      Left(contents[..n], positions[..n]) + |contents[n]| - positions[n].offset
  }

  /** Positions that only move forward have less behind them. */
  lemma {:induction false} LeftShrinks(contents: seq<Bytes>, a: seq<Position>, b: seq<Position>)
    requires AllFit(contents, a) && AllFit(contents, b)
    requires forall i :: 0 <= i < |contents| ==> a[i].offset <= b[i].offset
    ensures Left(contents, b) <= Left(contents, a)
    ensures (exists i :: 0 <= i < |contents| && a[i].offset != b[i].offset) ==> Left(contents, b) < Left(contents, a)
  {
    hide Fits;
    if contents != [] {
      var n := |contents| - 1;
      LeftShrinks(contents[..n], a[..n], b[..n]);
      if i :| 0 <= i < |contents| && a[i].offset != b[i].offset {
        assert i < n ==> a[..n][i].offset != b[..n][i].offset;
      }
    }
  }

  /** Polling files that do not change, for as long as the answer asks for it and gets further: every
      complete short line is handed out, each once and in order; or unterminated lines use up what a poll
      may read, and then every further poll asks for another and gets no further. */
  method DrainFiles(contents: seq<Bytes>, positions: seq<Position>, active: Option<Inode>, limit: nat)
    returns (records: seq<seq<Bytes>>, ends: seq<Position>, starved: bool)
    requires AllFit(contents, positions) && |contents| <= MAX_FILES && 1 <= limit <= 1000
    ensures AllFit(contents, ends) && HandedOut(contents, positions, ends, records)
    ensures !starved ==> forall i :: 0 <= i < |contents| ==>
              && Drained(contents[i], ends[i])
              && records[i] == Delivered(contents[i][positions[i].offset..], positions[i].dropping)
    ensures starved ==> Starved(Still(contents), active, Some(At(ends, active)), |contents|)
  {
    records, ends, starved := seq(|contents|, _ => []), positions, false;
    NothingHandedOut(contents, positions);
    var more := true;
    while more && !starved
      invariant AllFit(contents, ends) && HandedOut(contents, positions, ends, records)
      invariant starved ==> Starved(Still(contents), active, Some(At(ends, active)), |contents|)
      invariant !more ==> AllDrained(contents, ends)
      decreases Left(contents, ends), more, !starved
    {
      hide *;
      ends, records, more, starved := DrainOnce(contents, positions, ends, records, active, limit);
    }
    if !starved { AllOut(contents, positions, ends, records); }
  }

  /** One poll, unless it gets no further. */
  method DrainOnce(contents: seq<Bytes>, ghost positions: seq<Position>, ends: seq<Position>, records: seq<seq<Bytes>>,
                   active: Option<Inode>, limit: nat)
    returns (next: seq<Position>, all: seq<seq<Bytes>>, more: bool, starved: bool)
    requires AllFit(contents, ends) && HandedOut(contents, positions, ends, records)
    requires |contents| <= MAX_FILES && 1 <= limit <= 1000
    ensures AllFit(contents, next) && HandedOut(contents, positions, next, all)
    ensures starved ==> Starved(Still(contents), active, Some(At(next, active)), |contents|)
    ensures !more ==> AllDrained(contents, next)
    ensures Left(contents, next) <= Left(contents, ends)
    ensures more && !starved ==> Left(contents, next) < Left(contents, ends)
  {
    hide Starved, Still, At, Left, AllDrained, Fits, Read, FileRead;
    var r, parts;
    r, next, parts := PollStill(contents, ends, active, limit);
    more, starved, all := r.more, r.more && SameOffsets(ends, next), records;
    if starved {
      next := ends;
    } else {
      HandedOutMore(contents, positions, ends, next, records, parts);
      LeftShrinks(contents, ends, next);
      all := seq(|contents|, i requires 0 <= i < |contents| => records[i] + parts[i]);
    }
  }

  predicate AllDrained(contents: seq<Bytes>, positions: seq<Position>) {
    |contents| == |positions| && forall i :: 0 <= i < |contents| ==> Drained(contents[i], positions[i])
  }

  predicate SameOffsets(a: seq<Position>, b: seq<Position>) {
    |a| == |b| && forall i :: 0 <= i < |a| ==> a[i].offset == b[i].offset
  }

  /** Of each file, the part of a poll is what is between its positions. */
  predicate Further(contents: seq<Bytes>, a: seq<Position>, b: seq<Position>, parts: seq<seq<Bytes>>) {
    && |contents| == |a| == |b| == |parts|
    && forall i :: 0 <= i < |contents| ==>
         FileRead(contents[i], (a[i].offset, a[i].dropping), b[i], parts[i]) && Fits(contents[i], b[i])
  }

  method PollStill(contents: seq<Bytes>, ends: seq<Position>, active: Option<Inode>, limit: nat)
    returns (r: Reply, next: seq<Position>, parts: seq<seq<Bytes>>)
    requires AllFit(contents, ends) && |contents| <= MAX_FILES && 1 <= limit <= 1000
    ensures r.Reply? && AllFit(contents, next) && Further(contents, ends, next, parts)
    ensures !r.more ==> AllDrained(contents, next)
    ensures r.more && SameOffsets(ends, next) <==> Starved(Still(contents), active, Some(At(ends, active)), |contents|)
  {
    hide FileRead, Start, Fits, Drained, Lost, Refitted, Starved, Flatten;
    var files, previous := Still(contents), At(ends, active);
    r, parts := ReadLog(files, active, Some(previous), limit);
    forall i | 0 <= i < |contents|
      ensures i in r.cursor.files && Start(Some(previous), active, i, contents[i], SNAPSHOT_BYTES).0 == ends[i].offset
      ensures FileRead(contents[i], (ends[i].offset, ends[i].dropping), r.cursor.files[i], parts[i])
      ensures Fits(contents[i], r.cursor.files[i])
    {
      assert Accounted(files[i], active, Some(previous), r.cursor.files, parts[i]);
      StartsAt(contents, ends, active, i);
      ReadFits(contents[i], (ends[i].offset, ends[i].dropping), r.cursor.files[i], parts[i]);
    }
    next := seq(|contents|, i requires 0 <= i < |contents| => r.cursor.files[i]);
    assert forall i :: 0 <= i < |contents| ==> (Resting(files[i], active, Some(previous), r.cursor.files) <==>
                                                ends[i].offset == next[i].offset);
    if Unmoving(files, active, Some(previous), |files|, r.cursor.files) {
      forall i | 0 <= i < |contents| ensures ends[i].offset == next[i].offset {
        assert Resting(files[i], active, Some(previous), r.cursor.files);
      }
    }
    if !r.more {
      forall i | 0 <= i < |contents| ensures Drained(contents[i], next[i]) {
        assert Finished(files[i], r.cursor.files);
      }
    }
  }

  lemma StartsAt(contents: seq<Bytes>, ends: seq<Position>, active: Option<Inode>, i: nat)
    requires AllFit(contents, ends) && i < |contents|
    ensures Start(Some(At(ends, active)), active, i, contents[i], SNAPSHOT_BYTES) == (ends[i].offset, ends[i].dropping)
  {
    hide Anchor;
    assert Fits(contents[i], ends[i]);
    ResumesWhereLeft(At(ends, active), active, i, contents[i], contents[i]);
  }

  lemma ReadFits(content: Bytes, start: (nat, bool), position: Position, part: seq<Bytes>)
    requires FileRead(content, start, position, part)
    ensures Fits(content, position) && start.0 <= position.offset
  {
    hide Anchor, Delivered, Cut;
  }

  lemma NothingHandedOut(contents: seq<Bytes>, positions: seq<Position>)
    requires AllFit(contents, positions)
    ensures HandedOut(contents, positions, positions, seq(|contents|, _ => []))
  {
    hide Read;
    forall i | 0 <= i < |contents|
      ensures Read(contents[i], (positions[i].offset, positions[i].dropping),
                   (positions[i].offset, positions[i].dropping), [])
    {
      assert Fits(contents[i], positions[i]);
      ReadNothing(contents[i], (positions[i].offset, positions[i].dropping));
    }
  }

  lemma HandedOutMore(contents: seq<Bytes>, from: seq<Position>, a: seq<Position>, b: seq<Position>,
                      records: seq<seq<Bytes>>, parts: seq<seq<Bytes>>)
    requires HandedOut(contents, from, a, records) && Further(contents, a, b, parts)
    ensures HandedOut(contents, from, b,
                      seq(|contents|, i requires 0 <= i < |contents| => records[i] + parts[i]))
    ensures forall i :: 0 <= i < |contents| ==> a[i].offset <= b[i].offset
  {
    hide Read, FileRead, Fits, Drained;
    forall i | 0 <= i < |contents|
      ensures Read(contents[i], (from[i].offset, from[i].dropping), (b[i].offset, b[i].dropping), records[i] + parts[i])
      ensures a[i].offset <= b[i].offset
    {
      ReadFurther(contents[i], contents[i], contents[i], (from[i].offset, from[i].dropping),
                  (a[i].offset, a[i].dropping), records[i], b[i], parts[i]);
      ReadFits(contents[i], (a[i].offset, a[i].dropping), b[i], parts[i]);
    }
  }

  lemma AllOut(contents: seq<Bytes>, from: seq<Position>, to: seq<Position>, records: seq<seq<Bytes>>)
    requires HandedOut(contents, from, to, records)
    requires AllDrained(contents, to)
    ensures forall i :: 0 <= i < |contents| ==>
              from[i].offset <= |contents[i]| &&
              records[i] == Delivered(contents[i][from[i].offset..], from[i].dropping)
  {
    hide Delivered, Cut, Complete;
    forall i | 0 <= i < |contents|
      ensures from[i].offset <= |contents[i]|
      ensures records[i] == Delivered(contents[i][from[i].offset..], from[i].dropping)
    {
      assert Drained(contents[i], to[i]);
      Exactly(contents[i], (from[i].offset, from[i].dropping), (to[i].offset, to[i].dropping), records[i]);
    }
  }

  /** Starved files stay so: the positions of the next poll are where these are. */
  lemma StarvedStays(contents: seq<Bytes>, a: seq<Position>, b: seq<Position>, active: Option<Inode>,
                     parts: seq<seq<Bytes>>)
    requires AllFit(contents, a) && AllFit(contents, b) && Further(contents, a, b, parts) && SameOffsets(a, b)
    requires Starved(Still(contents), active, Some(At(a, active)), |contents|)
    ensures Starved(Still(contents), active, Some(At(b, active)), |contents|)
  {
    hide Fits, Start, Starved;
    forall i | 0 <= i < |contents|
      ensures Behind(Still(contents)[i], active, Some(At(a, active))) ==
              Behind(Still(contents)[i], active, Some(At(b, active)))
      ensures InLine(Still(contents)[i], active, Some(At(a, active))) <==>
              InLine(Still(contents)[i], active, Some(At(b, active)))
    {
      StartsAt(contents, a, active, i);
      StartsAt(contents, b, active, i);
      assert FileRead(contents[i], (a[i].offset, a[i].dropping), b[i], parts[i]);
      SameLine(contents[i], a[i], b[i]);
    }
    SameStarved(Still(contents), active, Some(At(a, active)), Some(At(b, active)));
  }

  lemma SameLine(content: Bytes, a: Position, b: Position)
    requires a.offset == b.offset <= |content| && Cut(content[a.offset..b.offset], a.dropping, b.dropping)
    ensures a.dropping == b.dropping
  {
    assert content[a.offset..b.offset] == [];
  }

  lemma SameStarved(files: seq<Entry>, active: Option<Inode>, a: Option<Cursor>, b: Option<Cursor>)
    requires forall i :: 0 <= i < |files| ==> Behind(files[i], active, a) == Behind(files[i], active, b)
    requires forall i :: 0 <= i < |files| ==> (InLine(files[i], active, a) <==> InLine(files[i], active, b))
    requires Starved(files, active, a, |files|)
    ensures Starved(files, active, b, |files|)
  {
    hide Behind, InLine, Unmoved;
    var k :| 0 <= k < |files| && StarvedAt(files, active, a, k);
    SameWaiting(files, active, a, b, k);
    assert StarvedAt(files, active, b, k);
  }

  lemma {:induction false} SameWaiting(files: seq<Entry>, active: Option<Inode>, a: Option<Cursor>, b: Option<Cursor>,
                                       k: nat)
    requires k <= |files|
    requires forall i :: 0 <= i < |files| ==> Behind(files[i], active, a) == Behind(files[i], active, b)
    ensures Waiting(files, active, a, k) == Waiting(files, active, b, k)
  {
    hide Behind;
    if k > 0 { SameWaiting(files, active, a, b, k - 1); }
  }

  /** Three files are never starved: a line that has not ended is at most MAX_LINE bytes. */
  lemma FewNeverStarved(files: seq<Entry>, active: Option<Inode>, previous: Option<Cursor>)
    requires |files| <= 3
    ensures !Starved(files, active, previous, |files|)
  {
    hide Behind, InLine;
    forall k | 0 <= k < |files| ensures !StarvedAt(files, active, previous, k) {
      if Idle(files, active, previous, k) { IdleWaiting(files, active, previous, k); }
    }
  }

  lemma {:induction false} IdleWaiting(files: seq<Entry>, active: Option<Inode>, previous: Option<Cursor>, k: nat)
    requires k <= |files| && Idle(files, active, previous, k)
    ensures Waiting(files, active, previous, k) <= k * MAX_LINE
  {
    hide Behind, InLine;
    if k > 0 {
      IdleWaiting(files, active, previous, k - 1);
      assert Unmoved(Behind(files[k - 1], active, previous), InLine(files[k - 1], active, previous));
    }
  }

  /** Four rotated files that end within a line of MAX_LINE bytes keep every poll from a fifth file, the
      active one, whatever is written to it. */
  lemma FourStarve(line: Bytes, last: Bytes)
    requires |line| == MAX_LINE && NEWLINE !in line && last != []
    ensures AllFit(Five(line, last), Origins())
    ensures Starved(Still(Five(line, last)), Some(4), Some(At(Origins(), Some(4))), 5)
  {
    hide Starved, Still, At, Fits, Behind, InLine, Five, Origins;
    FromStart(line);
    FromStart(last);
    assert AllFit(Five(line, last), Origins());
    FiveBehind(Five(line, last), Origins());
    FourIdle(line, last, Still(Five(line, last)), Some(At(Origins(), Some(4))));
  }

  function Five(line: Bytes, last: Bytes): (contents: seq<Bytes>)
    ensures |contents| == 5 && forall i :: 0 <= i < 5 ==> contents[i] == if i < 4 then line else last
  {
    [line, line, line, line, last]
  }

  function Origins(): (positions: seq<Position>)
    ensures |positions| == 5 && forall i :: 0 <= i < 5 ==> positions[i] == Position(0, 0, [], false)
  {
    seq(5, _ => Position(0, 0, [], false))
  }

  lemma FiveBehind(contents: seq<Bytes>, positions: seq<Position>)
    requires |contents| == 5 && AllFit(contents, positions)
    requires forall i :: 0 <= i < 5 ==> positions[i] == Position(0, 0, [], false)
    ensures var files, previous := Still(contents), Some(At(positions, Some(4)));
            forall i :: 0 <= i < 5 ==>
              Behind(files[i], Some(4), previous) == contents[i] && !InLine(files[i], Some(4), previous)
  {
    hide Start;
    forall i | 0 <= i < 5
      ensures Behind(Still(contents)[i], Some(4), Some(At(positions, Some(4)))) == contents[i]
      ensures !InLine(Still(contents)[i], Some(4), Some(At(positions, Some(4))))
    {
      StartsAt(contents, positions, Some(4), i);
      assert contents[i][0..] == contents[i];
    }
  }

  lemma FourIdle(line: Bytes, last: Bytes, files: seq<Entry>, previous: Option<Cursor>)
    requires |line| == MAX_LINE && NEWLINE !in line && last != [] && |files| == 5
    requires forall i :: 0 <= i < 5 ==>
               Behind(files[i], Some(4), previous) == (if i < 4 then line else last) &&
               !InLine(files[i], Some(4), previous)
    ensures Starved(files, Some(4), previous, 5)
  {
    hide Behind, InLine, Waiting, Unmoved;
    FourLines(files, previous);
    UnmovedLine(line);
    NothingUnmoved(false);
    assert last[..0] == [];
    assert StarvedAt(files, Some(4), previous, 4);
  }

  lemma UnmovedLine(line: Bytes)
    requires |line| <= MAX_LINE && NEWLINE !in line
    ensures Unmoved(line, false)
  {
    NewlineFree(line);
  }

  lemma FromStart(content: Bytes)
    ensures Fits(content, Position(0, 0, [], false))
  {
  }

  lemma FourLines(files: seq<Entry>, previous: Option<Cursor>)
    requires |files| == 5 && forall i :: 0 <= i < 4 ==> |Behind(files[i], Some(4), previous)| == MAX_LINE
    ensures Waiting(files, Some(4), previous, 4) == FOLLOW_BYTES
  {
    hide Behind, Waiting;
    NothingWaiting(files, previous);
    for k := 0 to 4
      invariant Waiting(files, Some(4), previous, k) == k * MAX_LINE
    {
      WaitingNext(files, Some(4), previous, k);
    }
  }

  lemma NothingWaiting(files: seq<Entry>, previous: Option<Cursor>)
    ensures Waiting(files, Some(4), previous, 0) == 0
  {
  }
}
