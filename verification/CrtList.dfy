/** HAProxy's crt-list files (app/scripts/certificate_remote.py). */
module CrtList {
  import opened TextLines

  /** crt_list_content: the file with one more line. */
  function WithEntry(original: string, path: string): string {
    (if original == [] || original[|original| - 1] == '\n' then original else original + "\n") + (path + "\n")
  }

  /** crt_list_content refuses other paths: a crt-list file cannot quote them. */
  predicate Writable(path: string) {
    forall i :: 0 <= i < |path| ==> !IsSpace(path[i]) && path[i] != '#'
  }

  /** The certificate that a line names, if any: its first word, comments aside. */
  function LineEntry(line: string): seq<string> {
    var tokens := Tokens(BeforeHash(line));
    if tokens == [] then [] else [tokens[0]]
  }

  /** The certificates that a crt-list file names, line by line. */
  function Entries(list: string): seq<string>
    decreases |list|
  {
    if list == [] then []
    else
      var n := BreakAt(list);
      LineEntry(list[..n]) + Entries(if n < |list| then list[n + 1..] else [])
  }

  /** The new line adds exactly one certificate to those that the file names, the last. */
  lemma WithEntryAddsOne(list: string, path: string)
    requires Writable(path) && path != []
    ensures Entries(WithEntry(list, path)) == Entries(list) + [path]
  {
    OneEntry(path);
    if list == [] || list[|list| - 1] == '\n' {
      EntriesConcat(list, path + "\n");
    } else {
      EntriesConcat(list + "\n", path + "\n");
      EntriesNewline(list);
    }
  }

  lemma OneEntry(path: string)
    requires Writable(path) && path != []
    ensures Entries(path + "\n") == [path]
  {
    BreakFirst(path, "\n");
    BeforeNoHash(path);
    WholeWord(path);
    assert (path + "\n")[..|path|] == path;
    assert Entries(path + "\n") == LineEntry(path) + Entries((path + "\n")[|path| + 1..]);
  }

  lemma {:induction false} BeforeNoHash(s: string)
    requires forall i :: 0 <= i < |s| ==> s[i] != '#'
    ensures BeforeHash(s) == s
  {
    if s != [] { BeforeNoHash(s[1..]); }
  }

  lemma {:induction false} WholeWord(s: string)
    requires forall i :: 0 <= i < |s| ==> !IsSpace(s[i])
    ensures WordEnd(s) == |s| && (s != [] ==> Tokens(s) == [s])
  {
    if s != [] {
      WholeWord(s[1..]);
      assert s[..|s|] == s && Tokens(s[|s|..]) == [];
    }
  }

  lemma {:induction false} BreakFirst(a: string, b: string)
    ensures BreakAt(a + b) == if BreakAt(a) < |a| then BreakAt(a) else |a| + BreakAt(b)
  {
    if a == [] {
      assert a + b == b;
    } else {
      assert (a + b)[1..] == a[1..] + b;
      BreakFirst(a[1..], b);
    }
  }

  lemma Associative<T>(x: seq<T>, y: seq<T>, z: seq<T>)
    ensures x + (y + z) == (x + y) + z
  {
  }

  lemma FirstLine(a: string, b: string)
    requires BreakAt(a) < |a|
    ensures Entries(a + b) == LineEntry(a[..BreakAt(a)]) + Entries(a[BreakAt(a) + 1..] + b)
  {
    var n := BreakAt(a);
    BreakFirst(a, b);
    assert (a + b)[..n] == a[..n];
    assert (a + b)[n + 1..] == a[n + 1..] + b;
  }

  lemma EntriesStep(a: string)
    requires BreakAt(a) < |a|
    ensures Entries(a) == LineEntry(a[..BreakAt(a)]) + Entries(a[BreakAt(a) + 1..])
  {
    hide LineEntry;
  }

  lemma NoEntries(b: string)
    ensures Entries([]) == [] && Entries([] + b) == Entries([]) + Entries(b)
  {
    assert [] + b == b;
  }

  lemma {:induction false} EntriesConcat(a: string, b: string)
    requires a == [] || a[|a| - 1] == '\n'
    ensures Entries(a + b) == Entries(a) + Entries(b)
    decreases |a|
  {
    hide Entries, LineEntry, BreakAt;
    if a == [] {
      NoEntries(b);
    } else {
      assert IsBreak(a[|a| - 1]);
      var rest := a[BreakAt(a) + 1..];
      FirstLine(a, b);
      EntriesStep(a);
      EntriesConcat(rest, b);
      Associative(LineEntry(a[..BreakAt(a)]), Entries(rest), Entries(b));
    }
  }

  lemma {:induction false} EntriesNewline(a: string)
    ensures Entries(a + "\n") == Entries(a)
    decreases |a|
  {
    BreakFirst(a, "\n");
    var n := BreakAt(a);
    assert (a + "\n")[..n] == a[..n];
    if n < |a| {
      assert (a + "\n")[n + 1..] == a[n + 1..] + "\n";
      EntriesNewline(a[n + 1..]);
    } else {
      assert (a + "\n")[n + 1..] == [] && a[..n] == a;
      assert a == [] ==> LineEntry(a) == [];
    }
  }
}
