/** What the aggregators see of a log through `pd.read_csv` and
    `pd.to_numeric(..., errors='coerce')`: the first row names the columns, and a
    column is looked up by name, every cell that is not a number becoming NaN. */
module Frames {
  import opened Base
  import opened Text
  import opened Csv

  /** A coerced cell: `None` is NaN. */
  type Value = Option<real>

  /** `pd.to_numeric(cell, errors='coerce')`: numbers stay, text is parsed as a
      decimal, anything else is NaN. */
  function ToNumeric(c: Cell): Value
  {
    match c
    case Int(i) => Some(i as real)
    case Num(x) => Some(x)
    case Str(t) => ParseDecimal(t)
    case Missing => None
  }

  /** A number the monitors wrote with `str(n)` reads back as that number. */
  lemma NumberReadsBack(n: nat)
    ensures ToNumeric(Str(NatToString(n))) == Some(n as real)
  {
    DecimalOfNatToString(n);
  }

  /** The `'N/A'` of a missing duration reads back as NaN. */
  lemma NaIsNaN()
    ensures ToNumeric(Str("N/A")) == None
  {
    assert Strip("N/A") == "N/A" by {
      StripKeeps("N/A");
    }
    assert DigitRun("N/A") == 0;
  }

  /** A memory reading such as `512.00MiB` is not a number and reads back as NaN. */
  lemma UnitIsNaN(digits: string, unit: string)
    requires digits != [] && AllDigits(digits)
    requires unit != [] && !IsDigit(unit[0]) && unit[0] != '.' && !IsSpace(unit[|unit| - 1])
    ensures ToNumeric(Str(digits + unit)) == None
  {
    var s := digits + unit;
    assert s[0] == digits[0] && IsDigit(s[0]) && !IsSpace(s[0]);
    assert s[|s| - 1] == unit[|unit| - 1];
    StripKeeps(s);
    assert SignOf(s) == (false, s);
    DigitRunOf(digits, unit);
  }

  lemma DigitRunOf(digits: string, unit: string)
    requires AllDigits(digits)
    requires unit != [] && !IsDigit(unit[0])
    ensures DigitRun(digits + unit) == |digits|
  {
    var s := digits + unit;
    assert s[|digits|] == unit[0] && s[..|digits|] == digits;
  }

  /** The position of the first column called `name`. */
  function ColumnIndex(header: Row, name: string): (r: Option<nat>)
    ensures r.None? <==> Str(name) !in header
    ensures r.Some? ==>
      && r.value < |header| && header[r.value] == Str(name)
      && forall j :: 0 <= j < r.value ==> header[j] != Str(name)
  {
    if header == [] then None
    else if header[0] == Str(name) then Some(0)
    else match ColumnIndex(header[1..], name)
      case None => None
      case Some(j) => Some(j + 1)
  }

  /** A short row is padded with NaN. */
  function Field(row: Row, j: nat): Cell {
    if j < |row| then row[j] else Missing
  }

  /** `pd.to_numeric(pd.read_csv(log)[name], errors='coerce')`: an empty file has
      no columns and a name the header lacks raises `KeyError`; otherwise one value
      per row after the header. */
  function NumericColumn(content: seq<Row>, name: string): (r: Result<seq<Value>, string>)
    ensures r.Success? <==> content != [] && Str(name) in content[0]
    ensures r.Success? ==>
      && |r.value| == |content| - 1
      && forall i :: 0 <= i < |r.value| ==> r.value[i] == ToNumeric(Field(content[i + 1], ColumnIndex(content[0], name).value))
  {
    if content == [] then Failure("EmptyDataError: No columns to parse from file")
    else match ColumnIndex(content[0], name)
      case None => Failure("KeyError: " + name)
      case Some(j) => Success(seq(|content| - 1, i requires 0 <= i < |content| - 1 => ToNumeric(Field(content[i + 1], j))))
  }

  /** `column / divisor`, NaN staying NaN. */
  function Scaled(column: seq<Value>, divisor: real): (r: seq<Value>)
    requires divisor != 0.0
    ensures |r| == |column|
    ensures forall i :: 0 <= i < |r| ==> (r[i].Some? <==> column[i].Some?)
    ensures forall i :: 0 <= i < |r| && column[i].Some? ==> r[i].value * divisor == column[i].value
  {
    seq(|column|, i requires 0 <= i < |column| => if column[i].Some? then Some(column[i].value / divisor) else None)
  }
}
