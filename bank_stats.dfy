/** The parse of one `docker stats --format "{{.CPUPerc}},{{.MemUsage}},{{.PIDs}}"`
    line in the bank monitor: `CPU%,Used / Limit,PIDs` into numbers, with the used
    memory normalised by its unit suffix. */
module BankStats {
  import opened Base
  import opened Text
  import opened Csv

  /** The three values one stats line yields. `memory` is a number (MB) when the
      unit test matched and the upper-cased text otherwise. */
  datatype StatsSample = StatsSample(cpu: real, memory: Cell, pids: int)

  /** The `ValueError`s the parse can raise, by the field that raised it. */
  datatype ParseError =
    | FieldCount(found: nat)
    | BadCpu(field: string)
    | BadMemory(field: string)
    | BadPids(field: string)

  /** `memory_usage.split('/')[0].strip().upper()`: the used part of `Used / Limit`. */
  function UsedMemoryText(usage: string): string {
    Upper(Strip(Split(usage, '/')[0]))
  }

  /** `float(m.replace(unit, '').strip())` scaled by `factor`; a `ValueError`
      names the whole memory field. */
  function UnitValue(m: string, unit: string, factor: real, usage: string): (r: Result<Cell, ParseError>)
    requires unit != []
    ensures r.Success? ==> r.value.Num?
    ensures r.Failure? ==> r.error == BadMemory(usage)
  {
    match ParseDecimal(Strip(Replace(m, unit, "")))
    case None => Failure(BadMemory(usage))
    case Some(v) => Success(Num(v * factor))
  }

  /** The unit test on the used memory text `m`: text containing `MB` is that
      number, otherwise text containing `GB` is the number times 1024, and any
      other text (`MIB`, `GIB`, `KB`, ...) is kept as it is. */
  function NormaliseUsed(m: string, usage: string): (r: Result<Cell, ParseError>)
    ensures r.Success? && r.value.Str? <==> !Contains(m, "MB") && !Contains(m, "GB")
    ensures r.Success? && r.value.Str? ==> r.value.text == m
    ensures r.Success? ==> r.value.Str? || r.value.Num?
    ensures r.Failure? ==> r.error == BadMemory(usage)
  {
    if Contains(m, "MB") then UnitValue(m, "MB", 1.0, usage)
    else if Contains(m, "GB") then UnitValue(m, "GB", 1024.0, usage)
    else Success(Str(m))
  }

  /** The memory field `Used / Limit` normalised by the unit of its used part. */
  function NormaliseMemory(usage: string): (r: Result<Cell, ParseError>)
    ensures r.Success? ==> r.value.Str? || r.value.Num?
    ensures r.Success? && r.value.Str? ==> r.value.text == UsedMemoryText(usage)
    ensures r.Failure? ==> r.error == BadMemory(usage)
  {
    NormaliseUsed(UsedMemoryText(usage), usage)
  }

  /** The parse of a stripped, non-empty stats line. It raises unless the line
      splits on `,` into exactly three fields; the CPU is the first field with `%`
      stripped, the PIDs the third field as an integer. */
  function ParseStatsLine(output: string): (r: Result<StatsSample, ParseError>)
    ensures r.Failure? && r.error.FieldCount? <==> |Split(output, ',')| != 3
    ensures r.Failure? && r.error.BadCpu? <==>
      |Split(output, ',')| == 3 && ParseDecimal(StripChar(Split(output, ',')[0], '%')).None?
    ensures r.Success? <==>
      && |Split(output, ',')| == 3
      && ParseDecimal(StripChar(Split(output, ',')[0], '%')).Some?
      && NormaliseMemory(Split(output, ',')[1]).Success?
      && ParseInt(Strip(Split(output, ',')[2])).Some?
    ensures r.Success? ==> r.value.memory.Str? || r.value.memory.Num?
  {
    var fields := Split(output, ',');
    if |fields| != 3 then Failure(FieldCount(|fields|))
    else
      match ParseDecimal(StripChar(fields[0], '%'))
      case None => Failure(BadCpu(fields[0]))
      case Some(cpu) =>
        match NormaliseMemory(fields[1])
        case Failure(e) => Failure(e)
        case Success(memory) =>
          match ParseInt(Strip(fields[2]))
          case None => Failure(BadPids(fields[2]))
          case Some(pids) => Success(StatsSample(cpu, memory, pids))
  }

  /** A number as `docker stats` prints it: digits, possibly with a decimal point. */
  predicate DecimalText(s: string) {
    |s| > 0 && IsDigit(s[0]) && forall i :: 0 <= i < |s| ==> IsDigit(s[i]) || s[i] == '.'
  }

  lemma {:induction false} StripTrailingSpace(x: string)
    requires x != [] && !IsSpace(x[0]) && !IsSpace(x[|x| - 1])
    ensures Strip(x + " ") == x
  {
    var s := x + " ";
    assert TrimStart(s, None) == s;
    assert s[..|s| - 1] == x;
    assert TrimEnd(s, None) == TrimEnd(x, None);
    StripKeeps(x);
  }

  /** `(x + " / " + limit).split('/')[0]` is `x + " "` for a slash-free `x`. */
  lemma {:induction false} FirstSlashField(x: string, limit: string)
    requires '/' !in x
    ensures Split(x + " / " + limit, '/')[0] == x + " "
  {
    assert '/' !in x + " " by {
      forall i | 0 <= i < |x + " "| ensures (x + " ")[i] != '/' {
        if i < |x| { assert (x + " ")[i] == x[i]; }
      }
    }
    assert x + " / " + limit == (x + " ") + ['/'] + (" " + limit);
    SplitCons(x + " ", '/', " " + limit);
  }

  /** Upper-casing a number followed by a unit upper-cases the unit only. */
  lemma {:induction false} UpperNumberUnit(num: string, unit: string, upper: string)
    requires DecimalText(num) && Upper(unit) == upper
    ensures Upper(num + unit) == num + upper
  {
    var x := num + unit;
    forall i | 0 <= i < |x| ensures Upper(x)[i] == (num + upper)[i] {
      if i < |num| {
        assert x[i] == num[i];
      } else {
        assert x[i] == unit[i - |num|];
      }
    }
  }

  lemma {:induction false} SlashFree(num: string, unit: string)
    requires DecimalText(num) && '/' !in unit
    ensures '/' !in num + unit
  {
    forall i | 0 <= i < |num + unit| ensures (num + unit)[i] != '/' {
      if i < |num| { assert (num + unit)[i] == num[i]; }
      else { assert (num + unit)[i] == unit[i - |num|]; }
    }
  }

  /** The used part of `<num><unit> / <limit>` is `<num><unit>` upper-cased. */
  lemma {:induction false} UsedPart(num: string, unit: string, upper: string, limit: string)
    requires DecimalText(num) && |unit| > 0 && !IsSpace(unit[|unit| - 1])
    requires '/' !in unit && Upper(unit) == upper
    ensures UsedMemoryText(num + unit + " / " + limit) == num + upper
  {
    var x := num + unit;
    SlashFree(num, unit);
    FirstSlashField(x, limit);
    assert x[0] == num[0] && x[|x| - 1] == unit[|unit| - 1];
    assert !IsSpace(x[0]);
    StripTrailingSpace(x);
    UpperNumberUnit(num, unit, upper);
  }

  /** No two-letter unit `[a, b]` occurs in `num + tail` when `a` is no digit and
      does not start a copy of it in `tail`. */
  lemma {:induction false} NoUnitIn(num: string, tail: string, a: char, b: char)
    requires DecimalText(num) && !IsDigit(a) && a != '.'
    requires forall i :: 0 <= i < |tail| - 1 ==> !(tail[i] == a && tail[i + 1] == b)
    ensures !Contains(num + tail, [a, b])
  {
    var s := num + tail;
    ContainsAt(s, [a, b]);
    forall i | 0 <= i && i + 2 <= |s| ensures !OccursAt(s, [a, b], i) {
      if i < |num| {
        assert s[i..i + 2][0] == num[i] != a;
      } else {
        var j := i - |num|;
        assert s[i..i + 2][0] == tail[j] && s[i..i + 2][1] == tail[j + 1];
      }
    }
  }

  /** Docker's usual `MiB` is not converted: `"512.00MiB / 7.6GiB"` stays the text
      `"512.00MIB"`, because `MB` is not a substring of `MIB`. */
  lemma MebibytesStayText(num: string, limit: string)
    requires DecimalText(num)
    ensures NormaliseMemory(num + "MiB / " + limit) == Success(Str(num + "MIB"))
  {
    var line := num + "MiB / " + limit;
    assert line == num + "MiB" + " / " + limit;
    UsedPart(num, "MiB", "MIB", limit);
    assert UsedMemoryText(line) == num + "MIB";
    NoUnitIn(num, "MIB", 'M', 'B');
    NoUnitIn(num, "MIB", 'G', 'B');
    assert !Contains(num + "MIB", "MB") && !Contains(num + "MIB", "GB");
  }

  /** Nor is `GiB`: `"2.00GiB / 7.6GiB"` stays the text `"2.00GIB"`. */
  lemma GibibytesStayText(num: string, limit: string)
    requires DecimalText(num)
    ensures NormaliseMemory(num + "GiB / " + limit) == Success(Str(num + "GIB"))
  {
    assert num + "GiB / " + limit == num + "GiB" + " / " + limit;
    UsedPart(num, "GiB", "GIB", limit);
    NoUnitIn(num, "GIB", 'M', 'B');
    NoUnitIn(num, "GIB", 'G', 'B');
  }

  /** Removing a unit that follows a text without the unit's first letter. */
  lemma {:induction false} ReplaceTrailingUnit(d: string, unit: string)
    requires |unit| > 0 && unit[0] !in d
    ensures Replace(d + unit, unit, "") == d
  {
    var s := d + unit;
    if d == [] {
      assert s[..|unit|] == unit;
      assert s[|unit|..] == [];
    } else {
      assert s[0] == d[0] != unit[0];
      assert s[..|unit|] != unit;
      ReplaceTrailingUnit(d[1..], unit);
      assert s[1..] == d[1..] + unit;
      assert [d[0]] + d[1..] == d;
    }
  }

  /** `str(n) + unit` read back as the number `n`, for a unit without digits. */
  lemma NumberBeforeUnit(n: nat, unit: string)
    requires |unit| > 0 && !IsDigit(unit[0])
    ensures ParseDecimal(Strip(Replace(NatToString(n) + unit, unit, ""))) == Some(n as real)
  {
    var d := NatToString(n);
    ReplaceTrailingUnit(d, unit);
    StripDigits(d);
    DecimalOfNatToString(n);
  }

  lemma {:induction false} DigitsAreDecimal(d: string)
    requires |d| > 0 && AllDigits(d)
    ensures DecimalText(d)
  {
  }

  /** `"<n><unit> / <limit>"` for a two-letter upper-case unit: the used text is
      `"<n><unit>"`, which contains the unit. */
  lemma {:induction false} UnitLine(n: nat, unit: string, limit: string)
    requires |unit| == 2 && Upper(unit) == unit && !IsDigit(unit[0]) && !IsSpace(unit[1]) && '/' !in unit
    ensures UsedMemoryText(NatToString(n) + unit + " / " + limit) == NatToString(n) + unit
    ensures Contains(NatToString(n) + unit, unit)
  {
    var d := NatToString(n);
    DigitsAreDecimal(d);
    UsedPart(d, unit, unit, limit);
    ContainsAt(d + unit, unit);
    assert (d + unit)[|d|..|d| + 2] == unit;
    assert OccursAt(d + unit, unit, |d|);
  }

  /** `"<n>MB / <limit>"` is the number `n`. */
  lemma MegabytesAreNumbers(n: nat, limit: string)
    ensures NormaliseMemory(NatToString(n) + "MB / " + limit) == Success(Num(n as real))
  {
    var d := NatToString(n);
    assert d + "MB / " + limit == d + "MB" + " / " + limit;
    UnitLine(n, "MB", limit);
    NumberBeforeUnit(n, "MB");
  }

  /** Proof step for the two `GB` lemmas below: it keeps the unfolding of
      `NormaliseUsed` out of their larger contexts. */
  lemma {:induction false} GigabyteBranch(m: string, usage: string, v: real)
    requires !Contains(m, "MB") && Contains(m, "GB")
    requires ParseDecimal(Strip(Replace(m, "GB", ""))) == Some(v)
    ensures NormaliseUsed(m, usage) == Success(Num(v * 1024.0))
  {
  }

  /** The used text of `"<n>GB / <limit>"` takes the `GB` branch with the number `n`. */
  lemma {:induction false} GigabyteText(n: nat, limit: string)
    ensures var m := UsedMemoryText(NatToString(n) + "GB / " + limit);
      && !Contains(m, "MB") && Contains(m, "GB")
      && ParseDecimal(Strip(Replace(m, "GB", ""))) == Some(n as real)
  {
    var d := NatToString(n);
    assert d + "GB / " + limit == d + "GB" + " / " + limit;
    UnitLine(n, "GB", limit);
    DigitsAreDecimal(d);
    NoUnitIn(d, "GB", 'M', 'B');
    NumberBeforeUnit(n, "GB");
  }

  /** `"<n>GB / <limit>"` is `n * 1024`. */
  lemma GigabytesAreScaled(n: nat, limit: string)
    ensures NormaliseMemory(NatToString(n) + "GB / " + limit) == Success(Num(n as real * 1024.0))
  {
    var line := NatToString(n) + "GB / " + limit;
    GigabyteText(n, limit);
    GigabyteBranch(UsedMemoryText(line), line, n as real);
  }

  /** The used text of `"<d><unit> / <limit>"` for a decimal `d` and the unit `MB`
      or `GB` is `"<d><unit>"`; it contains the unit, and without the unit it reads
      back as the value of `d`. */
  lemma {:induction false} DecimalUnitText(d: string, unit: string, limit: string, v: real)
    requires DecimalText(d) && ParseDecimal(d) == Some(v)
    requires unit == "MB" || unit == "GB"
    ensures UsedMemoryText(d + unit + " / " + limit) == d + unit
    ensures Contains(d + unit, unit)
    ensures ParseDecimal(Strip(Replace(d + unit, unit, ""))) == Some(v)
  {
    assert Upper(unit) == unit by {
      assert UpperChar(unit[0]) == unit[0] && UpperChar(unit[1]) == unit[1];
    }
    UsedPart(d, unit, unit, limit);
    ContainsAt(d + unit, unit);
    assert (d + unit)[|d|..|d| + 2] == unit;
    assert OccursAt(d + unit, unit, |d|);
    assert unit[0] !in d by {
      forall i | 0 <= i < |d| ensures d[i] != unit[0] {
        assert IsDigit(d[i]) || d[i] == '.';
      }
    }
    ReplaceTrailingUnit(d, unit);
    assert IsDigit(d[|d| - 1]) || d[|d| - 1] == '.';
    StripKeeps(d);
  }

  lemma {:induction false} DecimalMegabytes(d: string, v: real, limit: string)
    requires DecimalText(d) && ParseDecimal(d) == Some(v)
    ensures NormaliseMemory(d + "MB / " + limit) == Success(Num(v))
  {
    assert d + "MB / " + limit == d + "MB" + " / " + limit;
    DecimalUnitText(d, "MB", limit, v);
  }

  lemma {:induction false} DecimalGigabytes(d: string, v: real, limit: string)
    requires DecimalText(d) && ParseDecimal(d) == Some(v)
    ensures NormaliseMemory(d + "GB / " + limit) == Success(Num(v * 1024.0))
  {
    var gb := d + "GB / " + limit;
    assert gb == d + "GB" + " / " + limit;
    DecimalUnitText(d, "GB", limit, v);
    NoUnitIn(d, "GB", 'M', 'B');
    GigabyteBranch(d + "GB", gb, v);
  }

  /** Docker's decimal readings: `"<d>MB / <limit>"` is the value of `d`, and
      `"<d>GB / <limit>"` that value times 1024. */
  lemma DecimalUnits(d: string, v: real, limit: string)
    requires DecimalText(d) && ParseDecimal(d) == Some(v)
    ensures NormaliseMemory(d + "MB / " + limit) == Success(Num(v))
    ensures NormaliseMemory(d + "GB / " + limit) == Success(Num(v * 1024.0))
  {
    DecimalMegabytes(d, v, limit);
    DecimalGigabytes(d, v, limit);
  }

  /** A line whose three fields each parse yields the sample of their values. */
  lemma {:induction false} FieldsParse(output: string, cpu: real, memory: Cell, pids: int)
    requires |Split(output, ',')| == 3
    requires ParseDecimal(StripChar(Split(output, ',')[0], '%')) == Some(cpu)
    requires NormaliseMemory(Split(output, ',')[1]) == Success(memory)
    requires ParseInt(Strip(Split(output, ',')[2])) == Some(pids)
    ensures ParseStatsLine(output) == Success(StatsSample(cpu, memory, pids))
  {
  }

  /** The three comma-separated fields of a rendered stats line. */
  lemma {:induction false} StatsFields(c: string, d: string, limit: string, p: string)
    requires DecimalText(c) && DecimalText(d) && AllDigits(p) && ',' !in limit
    ensures Split(c + "%," + d + "MB / " + limit + "," + p, ',') == [c + "%", d + "MB / " + limit, p]
  {
    var m := d + "MB / " + limit;
    MemoryFieldCommaFree(d, limit);
    assert c + "%," + d + "MB / " + limit + "," + p == (c + "%") + [','] + (m + [','] + p);
    assert ',' !in c + "%" by {
      forall i | 0 <= i < |c + "%"| ensures (c + "%")[i] != ',' {
        if i < |c| { assert (c + "%")[i] == c[i]; }
      }
    }
    SplitCons(c + "%", ',', m + [','] + p);
    SplitCons(m, ',', p);
    assert ',' !in p;
    SplitNone(p, ',');
  }

  /** A decimal CPU field with its `%` stripped is the decimal again. */
  lemma {:induction false} PercentField(c: string)
    requires DecimalText(c)
    ensures StripChar(c + "%", '%') == c
  {
    var s := c + "%";
    assert TrimStart(s, Some('%')) == s;
    assert s[..|s| - 1] == c;
    assert IsDigit(c[|c| - 1]) || c[|c| - 1] == '.';
    assert TrimEnd(c, Some('%')) == c;
  }

  lemma {:induction false} MemoryFieldCommaFree(d: string, limit: string)
    requires DecimalText(d) && ',' !in limit
    ensures ',' !in d + "MB / " + limit
  {
    var m := d + "MB / " + limit;
    forall i | 0 <= i < |m| ensures m[i] != ',' {
      if i < |d| { assert m[i] == d[i]; }
      else if i >= |d| + 5 { assert m[i] == limit[i - |d| - 5]; }
    }
  }

  /** A stats line in docker's own form, such as `0.15%,512.3MB / 7.6GB,12`: a
      decimal CPU percentage, a decimal megabyte reading and a whole PID count
      parse back to their values. */
  lemma StatsLineRoundTrip(c: string, cpu: real, d: string, memory: real, limit: string, pids: nat)
    requires DecimalText(c) && ParseDecimal(c) == Some(cpu)
    requires DecimalText(d) && ParseDecimal(d) == Some(memory)
    requires ',' !in limit
    ensures ParseStatsLine(c + "%," + d + "MB / " + limit + "," + NatToString(pids))
         == Success(StatsSample(cpu, Num(memory), pids))
  {
    var line := c + "%," + d + "MB / " + limit + "," + NatToString(pids);
    var f := Split(line, ',');
    assert f == [c + "%", d + "MB / " + limit, NatToString(pids)] by {
      StatsFields(c, d, limit, NatToString(pids));
    }
    assert ParseDecimal(StripChar(f[0], '%')) == Some(cpu) by {
      PercentField(c);
    }
    assert NormaliseMemory(f[1]) == Success(Num(memory)) by {
      DecimalMegabytes(d, memory, limit);
    }
    assert ParseInt(Strip(f[2])) == Some(pids) by {
      StripDigits(NatToString(pids));
      IntOfNatToString(pids);
    }
    FieldsParse(line, cpu, Num(memory), pids);
  }

  /** Docker's CPU reading `0.15%` carries the decimal `0.15`, which reads as 0.15. */
  lemma {:induction false} CpuReading()
    ensures DecimalText("0.15") && ParseDecimal("0.15") == Some(0.15)
  {
    DecimalValue(0, "15");
    assert NatToString(0) + "." + "15" == "0.15";
  }

  /** Docker's memory reading `512.3MB` carries the decimal `512.3`, which reads as 512.3. */
  lemma {:induction false} MemoryReading()
    ensures DecimalText("512.3") && ParseDecimal("512.3") == Some(512.3)
  {
    assert NatToString(5) == "5";
    assert NatToString(51) == "51";
    assert NatToString(512) == "512";
    DecimalValue(512, "3");
    assert "512" + "." + "3" == "512.3";
  }
}
