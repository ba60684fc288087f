/** What a reader of a growing log should deliver: its complete lines of at most MAX_LINE bytes.

    A cursor may stand at the start of a line or, `dropping`, inside a line that is to be skipped.
    The theory says what is delivered between two cursors, and that this composes. */
module LogLines {

  import opened Bytes

  const NEWLINE: byte := 10
  const MAX_LINE: nat := 64 * 1024

  /** bytes.find(b'\n'), or the length if there is none. */
  function Newline(s: Bytes): (n: nat)
    ensures n <= |s|
    ensures n < |s| ==> s[n] == NEWLINE
    ensures forall i :: 0 <= i < n ==> s[i] != NEWLINE
  {
    if s == [] || s[0] == NEWLINE then 0 else 1 + Newline(s[1..])
  }

  predicate Complete(s: Bytes) {
    Newline(s) < |s|
  }

  /** The complete lines of at most MAX_LINE bytes, each with its newline, in order. */
  function Records(s: Bytes): seq<Bytes> {
    if !Complete(s) then [] else
      var line, rest := s[..Newline(s) + 1], s[Newline(s) + 1..];
      (if Newline(s) <= MAX_LINE then [line] else []) + Records(rest)
  }

  /** What follows the last newline. */
  function Tail(s: Bytes): Bytes {
    if !Complete(s) then s else Tail(s[Newline(s) + 1..])
  }

  /** What is left after the rest of the current line, if that is to be skipped. */
  function After(s: Bytes, dropping: bool): Bytes {
    if !dropping then s else if Complete(s) then s[Newline(s) + 1..] else []
  }

  /** What is to be delivered of the bytes s read from a cursor. */
  function Delivered(s: Bytes, dropping: bool): seq<Bytes> {
    Records(After(s, dropping))
  }

  /** Reading the bytes s from a cursor that is `from` dropping may leave a cursor that is `to`
      dropping: at the start of a line, or in a line known to be skipped. */
  predicate Cut(s: Bytes, from: bool, to: bool) {
    if to then (from && !Complete(s)) || |Tail(s)| > MAX_LINE
    else (s == [] && !from) || (s != [] && s[|s| - 1] == NEWLINE)
  }

  lemma {:induction false} NewlineConcat(a: Bytes, b: Bytes)
    ensures Newline(a + b) == if Complete(a) then Newline(a) else |a| + Newline(b)
  {
    if a == [] {
      assert a + b == b;
    } else {
      assert (a + b)[1..] == a[1..] + b;
      NewlineConcat(a[1..], b);
    }
  }

  lemma FirstLine(a: Bytes, b: Bytes)
    requires Complete(a)
    ensures Newline(a + b) == Newline(a) && (a + b)[..Newline(a) + 1] == a[..Newline(a) + 1]
    ensures (a + b)[Newline(a) + 1..] == a[Newline(a) + 1..] + b
  {
    NewlineConcat(a, b);
  }

  lemma {:induction false} TailShape(s: Bytes)
    ensures Tail(s) == [] <==> s == [] || s[|s| - 1] == NEWLINE
    ensures !Complete(Tail(s))
  {
    if Complete(s) {
      TailShape(s[Newline(s) + 1..]);
    }
  }

  /** Lines are found one after the other: those of a + b are those of a, then those of the
      unterminated tail of a continued by b. */
  lemma {:induction false} RecordsConcat(a: Bytes, b: Bytes)
    ensures Records(a + b) == Records(a) + Records(Tail(a) + b)
    ensures Tail(a + b) == Tail(Tail(a) + b)
  {
    hide Newline, Records, Tail;
    if Complete(a) {
      FirstLine(a, b);
      var n := Newline(a);
      RecordsConcat(a[n + 1..], b);
      FirstRecord(a);
      FirstRecord(a + b);
      Associate(if n <= MAX_LINE then [a[..n + 1]] else [], Records(a[n + 1..]), Records(Tail(a[n + 1..]) + b));
    } else {
      NoRecord(a);
      Associate([], [], Records(a + b));
    }
  }

  lemma Associate(a: seq<Bytes>, b: seq<Bytes>, c: seq<Bytes>)
    ensures a + (b + c) == (a + b) + c && [] + c == c
  {
  }

  lemma NoRecord(s: Bytes)
    requires !Complete(s)
    ensures Records(s) == [] && Tail(s) == s
  {
  }

  lemma FirstRecord(s: Bytes)
    requires Complete(s)
    ensures var n := Newline(s);
            Records(s) == (if n <= MAX_LINE then [s[..n + 1]] else []) + Records(s[n + 1..]) &&
                Tail(s) == Tail(s[n + 1..])
  {
    hide Newline;
  }

  /** The place of the first newline is the only one of its kind. */
  lemma NewlineIs(s: Bytes, n: nat)
    requires n < |s| && s[n] == NEWLINE && forall i :: 0 <= i < n ==> s[i] != NEWLINE
    ensures Newline(s) == n
  {
  }

  /** Where a has no newline, a + b breaks where b does. */
  lemma NoBreak(a: Bytes, b: Bytes)
    requires !Complete(a)
    ensures Complete(a + b) <==> Complete(b)
    ensures Newline(a + b) == |a| + Newline(b)
    ensures Complete(b) ==> (a + b)[Newline(a + b) + 1..] == b[Newline(b) + 1..]
    ensures After(a + b, true) == After(b, true)
    ensures Tail(a + b) == if Complete(b) then Tail(b) else a + b
  {
    NewlineConcat(a, b);
    if Complete(b) {
      assert (a + b)[Newline(a + b) + 1..] == b[Newline(b) + 1..];
    }
  }

  /** A line that is already too long is skipped, however it goes on. */
  lemma LongLine(t: Bytes, b: Bytes)
    requires |t| > MAX_LINE && !Complete(t)
    ensures Records(t + b) == Delivered(b, true)
  {
    NoBreak(t, b);
    if Complete(b) {
      var rest := Records(b[Newline(b) + 1..]);
      assert [] + rest == rest;
    }
  }

  lemma DeliveredConcat(a: Bytes, b: Bytes, from: bool)
    requires from ==> Complete(a)
    ensures Delivered(a + b, from) == Delivered(a, from) + Records(Tail(a) + b)
  {
    hide Records;
    if from {
      FirstLine(a, b);
      RecordsConcat(After(a, true), b);
      assert Complete(a + b) && Tail(a) == Tail(After(a, true));
    } else {
      RecordsConcat(a, b);
    }
  }

  /** At the start of a line. */
  lemma ReadOnFromStart(a: Bytes, b: Bytes, from: bool, to: bool)
    requires Cut(a, from, false)
    ensures Delivered(a + b, from) == Delivered(a, from) + Delivered(b, false)
    ensures Cut(b, false, to) ==> Cut(a + b, from, to)
  {
    TailShape(a);
    assert [] + b == b;
    DeliveredConcat(a, b, from);
    RecordsConcat(a, b);
    if b == [] { assert a + b == a; }
  }

  /** In a line that was to be skipped from the beginning. */
  lemma ReadOnSkipping(a: Bytes, b: Bytes, to: bool)
    requires !Complete(a)
    ensures Delivered(a + b, true) == Delivered(b, true)
    ensures Cut(b, true, to) ==> Cut(a + b, true, to)
  {
    NoBreak(a, b);
  }

  /** In a line that has become too long. */
  lemma ReadOnLong(a: Bytes, b: Bytes, from: bool, to: bool)
    requires |Tail(a)| > MAX_LINE && (from ==> Complete(a))
    ensures Delivered(a + b, from) == Delivered(a, from) + Delivered(b, true)
    ensures Cut(b, true, to) ==> Cut(a + b, from, to)
  {
    hide *;
    TailShape(a);
    LongLine(Tail(a), b);
    DeliveredConcat(a, b, from);
    LongCut(a, b, from, to);
  }

  lemma LongCut(a: Bytes, b: Bytes, from: bool, to: bool)
    requires |Tail(a)| > MAX_LINE && (from ==> Complete(a))
    ensures Cut(b, true, to) ==> Cut(a + b, from, to)
  {
    hide Records, Tail, Newline;
    TailShape(a);
    NoBreak(Tail(a), b);
    RecordsConcat(a, b);
    assert b != [] ==> (a + b)[|a + b| - 1] == b[|b| - 1];
  }

  /** Reading on from a cursor delivers exactly what one reading from the start would have, and
      leaves a cursor from which one can read on again. */
  lemma ReadOn(a: Bytes, b: Bytes, from: bool, mid: bool, to: bool)
    requires Cut(a, from, mid)
    ensures Delivered(a + b, from) == Delivered(a, from) + Delivered(b, mid)
    ensures Cut(b, mid, to) ==> Cut(a + b, from, to)
  {
    if !mid {
      ReadOnFromStart(a, b, from, to);
    } else if from && !Complete(a) {
      ReadOnSkipping(a, b, to);
      assert Delivered(a, from) == [];
    } else {
      ReadOnLong(a, b, from, to);
    }
  }
}
