/** The readiness gates of `measure`: read the launched program's output line by
    line until a marker appears. The lines `readline` returns are given as data;
    past the end of the given lines every read returns `""`, as a closed pipe
    does. */
module Readiness {
  import opened Base
  import opened Text

  /** What the data generator prints once the bank has imported its accounts. */
  const ImportMarker: string := "File imported."

  /** What the mergesort programs print once their warm-up runs are done (the
      spelling is the program's own). */
  const WarmUpMarker: string := "warum up runs finished"

  /** The bank gate, `for line in iter(readline, "")`: how many lines it took,
      and whether it stopped at the marker rather than at the end of the stream. */
  datatype BankGate = BankGate(taken: nat, imported: bool)

  /** What the bank gate does with `lines` when it waits for `marker`. */
  function BankWait(lines: seq<string>, marker: string): (g: BankGate)
    ensures g.taken <= |lines|
  {
    if lines == [] || lines[0] == "" then BankGate(0, false)
    else if Contains(Strip(lines[0]), marker) then BankGate(1, true)
    else
      var rest := BankWait(lines[1..], marker);
      BankGate(1 + rest.taken, rest.imported)
  }

  /** What the bank gate prints: the stripped lines that are not empty, in order. */
  function Printed(lines: seq<string>): (r: seq<string>)
    ensures |r| <= |lines|
  {
    if lines == [] then []
    else (if Strip(lines[0]) != [] then [Strip(lines[0])] else []) + Printed(lines[1..])
  }

  lemma {:induction false} PrintedSnoc(lines: seq<string>, line: string)
    ensures Printed(lines + [line]) == Printed(lines) + (if Strip(line) != [] then [Strip(line)] else [])
  {
    if lines != [] {
      assert (lines + [line])[1..] == lines[1..] + [line];
      PrintedSnoc(lines[1..], line);
    } else {
      assert lines + [line] == [line];
    }
  }

  /** Taking one more line prints its stripped text when that is not empty. */
  lemma PrintedTake(lines: seq<string>, i: nat)
    requires i < |lines|
    ensures Printed(lines[..i + 1]) == Printed(lines[..i]) + (if Strip(lines[i]) != [] then [Strip(lines[i])] else [])
  {
    assert lines[..i + 1] == lines[..i] + [lines[i]];
    PrintedSnoc(lines[..i], lines[i]);
  }

  /** The bank gate stops at the first line whose stripped text holds the marker,
      or at the end of the stream, whichever comes first: it takes the marker line
      with it and never a line after it. */
  lemma {:induction false} BankWaitStops(lines: seq<string>, marker: string)
    ensures var g := BankWait(lines, marker);
      && (forall i :: 0 <= i < g.taken ==> lines[i] != "")
      && (forall i :: 0 <= i < g.taken - 1 ==> !Contains(Strip(lines[i]), marker))
      && (g.imported <==> g.taken > 0 && Contains(Strip(lines[g.taken - 1]), marker))
      && (!g.imported ==> g.taken == |lines| || lines[g.taken] == "")
  {
    var g := BankWait(lines, marker);
    if lines != [] && lines[0] != "" && !Contains(Strip(lines[0]), marker) {
      var rest := BankWait(lines[1..], marker);
      BankWaitStops(lines[1..], marker);
      forall i | 1 <= i < g.taken ensures lines[i] != "" {
        assert lines[1..][i - 1] == lines[i];
      }
      forall i | 1 <= i < g.taken - 1 ensures !Contains(Strip(lines[i]), marker) {
        assert lines[1..][i - 1] == lines[i];
      }
      if rest.taken > 0 {
        assert lines[1..][rest.taken - 1] == lines[g.taken - 1];
      }
      if !rest.imported && rest.taken < |lines[1..]| {
        assert lines[1..][rest.taken] == lines[g.taken];
      }
    }
  }

  /** One line of the bank gate from position `i`. */
  lemma {:induction false} BankWaitAt(lines: seq<string>, marker: string, i: nat)
    requires i < |lines| && lines[i] != ""
    ensures BankWait(lines[i..], marker)
         == if Contains(Strip(lines[i]), marker) then BankGate(1, true)
            else BankGate(1 + BankWait(lines[i + 1..], marker).taken, BankWait(lines[i + 1..], marker).imported)
  {
    assert lines[i..][0] == lines[i] && lines[i..][1..] == lines[i + 1..];
  }

  /** The gate loop of `measure` in the bank monitor: it stops as `BankWait` says
      and prints the non-empty stripped lines it took. */
  method AwaitImport(lines: seq<string>, marker: string) returns (g: BankGate, echoed: seq<string>)
    ensures g == BankWait(lines, marker)
    ensures echoed == Printed(lines[..g.taken])
  {
    var i := 0;
    echoed := [];
    assert lines[0..] == lines;
    assert lines[..0] == [];
    while i < |lines| && lines[i] != ""
      invariant 0 <= i <= |lines|
      invariant BankWait(lines, marker) == BankGate(i + BankWait(lines[i..], marker).taken, BankWait(lines[i..], marker).imported)
      invariant echoed == Printed(lines[..i])
    {
      BankWaitAt(lines, marker, i);
      var line := Strip(lines[i]);
      PrintedTake(lines, i);
      if line != [] {
        echoed := echoed + [line];
      }
      if Contains(line, marker) {
        return BankGate(i + 1, true), echoed;
      }
      i := i + 1;
    }
    g := BankGate(i, false);
  }

  /** How a gate without an end-of-stream exit ends: ready after `read` lines, or
      blocked for ever because the marker never comes. */
  datatype Wait = Ready(read: nat) | Hangs

  /** The index of the first line holding `marker`. */
  function FirstWith(lines: seq<string>, marker: string): (r: Option<nat>)
    ensures r.Some? ==> r.value < |lines| && Contains(lines[r.value], marker)
    ensures r.Some? ==> forall i :: 0 <= i < r.value ==> !Contains(lines[i], marker)
    ensures r.None? ==> forall i :: 0 <= i < |lines| ==> !Contains(lines[i], marker)
  {
    if lines == [] then None
    else if Contains(lines[0], marker) then Some(0)
    else match FirstWith(lines[1..], marker)
      case None => None
      case Some(k) => Some(k + 1)
  }

  /** The mergesort and chunk gates, `while True: output = readline() ...`: every
      line is printed as read, the loop stops at the first line that holds the
      marker, and an exhausted stream yields `""` for ever without stopping it. */
  method AwaitMarker(lines: seq<string>, marker: string) returns (w: Wait)
    ensures w.Ready? <==> FirstWith(lines, marker).Some?
    ensures w.Ready? ==> w.read == FirstWith(lines, marker).value + 1
  {
    var i := 0;
    while i < |lines|
      invariant 0 <= i <= |lines|
      invariant forall j :: 0 <= j < i ==> !Contains(lines[j], marker)
    {
      if Contains(lines[i], marker) {
        FirstIsFirst(lines, marker, i);
        return Ready(i + 1);
      }
      i := i + 1;
    }
    FirstIsFirst(lines, marker, |lines|);
    w := Hangs;
  }

  /** `FirstWith` finds the first match: nothing before `k` matches and `k` does
      (or `k` is the end). */
  lemma {:induction false} FirstIsFirst(lines: seq<string>, marker: string, k: nat)
    requires k <= |lines|
    requires forall j :: 0 <= j < k ==> !Contains(lines[j], marker)
    requires k < |lines| ==> Contains(lines[k], marker)
    ensures k < |lines| ==> FirstWith(lines, marker) == Some(k)
    ensures k == |lines| ==> FirstWith(lines, marker) == None
  {
    if k > 0 {
      FirstIsFirst(lines[1..], marker, k - 1);
    }
  }
}
