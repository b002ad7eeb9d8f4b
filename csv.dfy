/** CSV rows as the harness writes them through `csv.writer`, and the directory of
    log files they are appended to. A file is the sequence of rows written to it. */
module Csv {

  /** One CSV cell: a Python `str`, `int` or `float`, or `None` (written empty). */
  datatype Cell = Str(text: string) | Int(i: int) | Num(x: real) | Missing

  type Row = seq<Cell>

  /** A log that holds its header row first and never again. */
  predicate HeaderOnce(rows: seq<Row>, header: Row) {
    rows == [] || (rows[0] == header && forall i :: 1 <= i < |rows| ==> rows[i] != header)
  }

  /** Appending rows that differ from the header keeps a well-formed log well formed. */
  lemma {:induction false} HeaderOnceAppend(rows: seq<Row>, header: Row, more: seq<Row>)
    requires HeaderOnce(rows, header) && rows != []
    requires forall j :: 0 <= j < |more| ==> more[j] != header
    ensures HeaderOnce(rows + more, header)
  {
    var all := rows + more;
    forall i | 1 <= i < |all| ensures all[i] != header {
      if i >= |rows| {
        assert all[i] == more[i - |rows|];
      }
    }
  }

  lemma AppendAssoc(prefix: seq<Row>, written: seq<Row>, row: Row)
    ensures prefix + written + [row] == prefix + (written + [row])
  {
  }

  lemma ShiftRow(written: seq<Row>, row: Row, rest: seq<Row>)
    ensures written + ([row] + rest) == (written + [row]) + rest
  {
  }

  lemma AppendNothing(written: seq<Row>)
    ensures written + [] == written
  {
  }

  /** The files of one measurement directory, by name. */
  class Directory {
    var files: map<string, seq<Row>>

    /** What `open(name)` reads: the rows written so far, none for a missing file. */
    function Content(name: string): seq<Row>
      reads this
    {
      if name in files then files[name] else []
    }

    constructor (initial: map<string, seq<Row>>)
      ensures files == initial
    {
      files := initial;
    }

    /** `open(name, 'w')`: the file is created or emptied. */
    method Truncate(name: string)
      modifies this
      ensures files == old(files)[name := []]
    {
      files := files[name := []];
    }

    /** `writer.writerow(row)` on a file opened for appending. */
    method Append(name: string, row: Row)
      modifies this
      ensures files == old(files)[name := old(Content(name)) + [row]]
    {
      files := files[name := Content(name) + [row]];
    }

    /** The header rule of every sampler: write `header` only when
        `os.stat(name).st_size == 0`, that is, when the file holds no row yet. */
    method AppendHeaderIfEmpty(name: string, header: Row)
      modifies this
      ensures files == old(files)[name := if old(Content(name)) == [] then [header] else old(Content(name))]
    {
      if Content(name) == [] {
        files := files[name := [header]];
      } else {
        files := files[name := Content(name)];
      }
    }
  }
}
