/** Option and Result, the two wrappers every other module uses for Python's
    `None` and for the exceptions the harness raises. */
module Base {
  datatype Option<+T> = None | Some(value: T)

  datatype Result<+R, +E> = Success(value: R) | Failure(error: E)
}

/** The handful of Python `str` operations the harness applies to tool output:
    `strip`, `strip(c)`, `upper`, `in`, `replace`, `split`, `str(n)`, `int(s)` and
    `float(s)`. Characters are code points; only ASCII case and ASCII whitespace
    are modelled. */
module Text {
  import opened Base

  /** The ASCII characters Python's `str.isspace` accepts: tab, newline, vertical
      tab, form feed, carriage return, the four separators 0x1C-0x1F and space. */
  predicate IsSpace(c: char) {
    (9 <= c as int <= 13) || (28 <= c as int <= 32)
  }

  predicate IsDigit(c: char) {
    '0' <= c <= '9'
  }

  predicate AllDigits(s: string) {
    forall i :: 0 <= i < |s| ==> IsDigit(s[i])
  }

  /** `s.lstrip(c)` for one character, or `s.lstrip()` when `c` is `None`. */
  function TrimStart(s: string, c: Option<char>): (r: string)
    ensures |r| <= |s|
  {
    if |s| > 0 && Strippable(s[0], c) then TrimStart(s[1..], c) else s
  }

  /** `lstrip` removes a run of strippable characters from the front and stops at
      the first character that is not. */
  lemma {:induction false} TrimStartShape(s: string, c: Option<char>)
    ensures var r := TrimStart(s, c);
      && r == s[|s| - |r|..]
      && (forall i :: 0 <= i < |s| - |r| ==> Strippable(s[i], c))
      && (r == [] || !Strippable(r[0], c))
  {
    if |s| > 0 && Strippable(s[0], c) {
      TrimStartShape(s[1..], c);
    }
  }

  /** `s.rstrip(c)` for one character, or `s.rstrip()` when `c` is `None`. */
  function TrimEnd(s: string, c: Option<char>): (r: string)
    ensures |r| <= |s|
  {
    if |s| > 0 && Strippable(s[|s| - 1], c) then TrimEnd(s[..|s| - 1], c) else s
  }

  /** `rstrip` removes a run of strippable characters from the back and stops at
      the last character that is not. */
  lemma {:induction false} TrimEndShape(s: string, c: Option<char>)
    ensures var r := TrimEnd(s, c);
      && r == s[..|r|]
      && (forall i :: |r| <= i < |s| ==> Strippable(s[i], c))
      && (r == [] || !Strippable(r[|r| - 1], c))
  {
    if |s| > 0 && Strippable(s[|s| - 1], c) {
      TrimEndShape(s[..|s| - 1], c);
    }
  }

  predicate Strippable(x: char, c: Option<char>) {
    match c
    case None => IsSpace(x)
    case Some(d) => x == d
  }

  /** `s.strip()`: whitespace removed from both ends. */
  function Strip(s: string): (r: string)
    ensures |r| <= |s|
  {
    TrimEnd(TrimStart(s, None), None)
  }

  /** `s.strip(c)` for a single character `c`. */
  function StripChar(s: string, c: char): (r: string)
    ensures |r| <= |s|
  {
    TrimEnd(TrimStart(s, Some(c)), Some(c))
  }

  /** What `strip` leaves is a slice of the text that neither starts nor ends with
      a character it strips. */
  lemma TrimShape(s: string, c: Option<char>)
    ensures var r := TrimEnd(TrimStart(s, c), c);
      && |s| - |TrimStart(s, c)| + |r| <= |s|
      && r == s[|s| - |TrimStart(s, c)|..|s| - |TrimStart(s, c)| + |r|]
      && (r == [] || (!Strippable(r[0], c) && !Strippable(r[|r| - 1], c)))
  {
    var t := TrimStart(s, c);
    var r := TrimEnd(t, c);
    TrimStartShape(s, c);
    TrimEndShape(t, c);
    var i := |s| - |t|;
    assert r == s[i..i + |r|];
    if r != [] {
      assert r[0] == t[0];
    }
  }

  function UpperChar(c: char): char {
    if 'a' <= c <= 'z' then (c as int - 32) as char else c
  }

  /** `s.upper()` on ASCII letters. */
  function Upper(s: string): (r: string)
    ensures |r| == |s|
    ensures forall i :: 0 <= i < |s| ==> r[i] == UpperChar(s[i])
  {
    if s == [] then [] else [UpperChar(s[0])] + Upper(s[1..])
  }

  /** `sub in s`: the empty text is in every text, and a text holds no longer one. */
  predicate Contains(s: string, sub: string)
    ensures sub == [] ==> Contains(s, sub)
    ensures Contains(s, sub) ==> |sub| <= |s|
    decreases |s|
  {
    if |sub| > |s| then false
    else s[..|sub|] == sub || Contains(s[1..], sub)
  }

  /** `sub` occurs in `s` starting at index `i`. */
  predicate OccursAt(s: string, sub: string, i: int) {
    0 <= i && i + |sub| <= |s| && s[i..i + |sub|] == sub
  }

  /** An occurrence in the tail is one position further in the whole string. */
  lemma OccursShift(s: string, sub: string, i: nat)
    requires s != []
    ensures OccursAt(s[1..], sub, i) <==> OccursAt(s, sub, i + 1)
  {
    if i + 1 + |sub| <= |s| {
      assert s[1..][i..i + |sub|] == s[i + 1..i + 1 + |sub|];
    }
  }

  lemma {:induction false} ContainsAt(s: string, sub: string)
    ensures Contains(s, sub) <==> exists i :: OccursAt(s, sub, i)
    decreases |s|
  {
    if |sub| > |s| {
      forall i ensures !OccursAt(s, sub, i) { }
    } else if s[..|sub|] == sub {
      assert OccursAt(s, sub, 0);
    } else {
      ContainsAt(s[1..], sub);
      if Contains(s[1..], sub) {
        var i :| OccursAt(s[1..], sub, i);
        OccursShift(s, sub, i);
      } else {
        forall i ensures !OccursAt(s, sub, i) {
          if i > 0 {
            OccursShift(s, sub, i - 1);
          }
        }
      }
    }
  }

  /** `s.replace(pattern, repl)`: every non-overlapping occurrence, left to right. */
  function Replace(s: string, pattern: string, repl: string): (r: string)
    requires pattern != []
    ensures !Contains(s, pattern) ==> r == s
    decreases |s|
  {
    if |s| < |pattern| then s
    else if s[..|pattern|] == pattern then repl + Replace(s[|pattern|..], pattern, repl)
    else [s[0]] + Replace(s[1..], pattern, repl)
  }

  /** `s.split(sep)`: the pieces between the separators, at least one. */
  function Split(s: string, sep: char): (r: seq<string>)
    ensures |r| >= 1
    ensures forall i :: 0 <= i < |r| ==> sep !in r[i]
  {
    if s == [] then [""]
    else
      var rest := Split(s[1..], sep);
      if s[0] == sep then [""] + rest
      else [[s[0]] + rest[0]] + rest[1..]
  }

  /** `sep.join(parts)`, the inverse of `Split`. */
  function Join(parts: seq<string>, sep: char): string
    requires |parts| >= 1
  {
    if |parts| == 1 then parts[0] else parts[0] + [sep] + Join(parts[1..], sep)
  }

  lemma {:induction false} JoinSplit(s: string, sep: char)
    ensures Join(Split(s, sep), sep) == s
  {
    if s != [] {
      var rest := Split(s[1..], sep);
      JoinSplit(s[1..], sep);
      if s[0] == sep {
        assert Split(s, sep)[1..] == rest;
      } else {
        var r := Split(s, sep);
        if |rest| == 1 {
          assert r == [[s[0]] + rest[0]];
        } else {
          assert r[1..] == rest[1..];
          assert Join(rest, sep) == rest[0] + [sep] + Join(rest[1..], sep);
        }
      }
    }
  }

  /** Splitting a text made of a separator-free head, the separator and a tail. */
  lemma {:induction false} SplitCons(head: string, sep: char, tail: string)
    requires sep !in head
    ensures Split(head + [sep] + tail, sep) == [head] + Split(tail, sep)
  {
    if head == [] {
      assert head + [sep] + tail == [sep] + tail;
      assert ([sep] + tail)[1..] == tail;
    } else {
      SplitCons(head[1..], sep, tail);
      assert (head + [sep] + tail)[1..] == head[1..] + [sep] + tail;
      assert [head[0]] + head[1..] == head;
    }
  }

  /** A text without the separator splits into itself alone. */
  lemma {:induction false} SplitNone(s: string, sep: char)
    requires sep !in s
    ensures Split(s, sep) == [s]
  {
    if s != [] {
      SplitNone(s[1..], sep);
      assert [s[0]] + s[1..] == s;
    }
  }

  function DigitChar(d: nat): char
    requires d < 10
  {
    ('0' as int + d) as char
  }

  function DigitValue(c: char): nat
    requires IsDigit(c)
  {
    c as int - '0' as int
  }

  /** `str(n)` for a non-negative integer. */
  function NatToString(n: nat): (r: string)
    ensures |r| >= 1 && AllDigits(r)
  {
    if n < 10 then [DigitChar(n)] else NatToString(n / 10) + [DigitChar(n % 10)]
  }

  /** The value of a run of decimal digits (0 for the empty run). */
  function DigitsValue(s: string): nat
    requires AllDigits(s)
  {
    if s == [] then 0 else DigitsValue(s[..|s| - 1]) * 10 + DigitValue(s[|s| - 1])
  }

  lemma {:induction false} DigitsOfNat(n: nat)
    ensures DigitsValue(NatToString(n)) == n
  {
    if n >= 10 {
      DigitsOfNat(n / 10);
      var s := NatToString(n);
      assert s[..|s| - 1] == NatToString(n / 10);
    }
  }

  /** The value of the digits after a decimal point: `0.d0 d1 d2 ...`, built one
      digit at a time so that only division by ten occurs. */
  function FractionValue(f: string): (r: real)
    requires AllDigits(f)
    ensures 0.0 <= r <= 1.0
  {
    if f == [] then 0.0 else (DigitValue(f[0]) as real + FractionValue(f[1..])) / 10.0
  }

  /** Length of the leading run of digits. */
  function DigitRun(s: string): (n: nat)
    ensures n <= |s| && AllDigits(s[..n])
    ensures n < |s| ==> !IsDigit(s[n])
  {
    if s == [] || !IsDigit(s[0]) then 0
    else
      var k := DigitRun(s[1..]);
      assert s[..k + 1] == [s[0]] + s[1..][..k];
      k + 1
  }

  /** An optional leading sign: whether it is `-`, and the text after it. */
  function SignOf(t: string): (r: (bool, string))
    ensures |r.1| <= |t|
  {
    if |t| > 0 && t[0] == '-' then (true, t[1..])
    else if |t| > 0 && t[0] == '+' then (false, t[1..])
    else (false, t)
  }

  /** `int(s)`: surrounding whitespace, an optional sign and at least one digit. A
      bare run of digits reads as its value. */
  function ParseInt(s: string): (r: Option<int>)
    ensures s != [] && AllDigits(s) ==> r == Some(DigitsValue(s))
  {
    assert AllDigits(s) ==> Strip(s) == s by {
      if AllDigits(s) {
        StripDigits(s);
      }
    }
    var (negative, body) := SignOf(Strip(s));
    if body != [] && AllDigits(body) then
      var v: int := DigitsValue(body);
      Some(if negative then -v else v)
    else None
  }

  /** Unsigned decimal `ddd`, `ddd.ddd`, `ddd.` or `.ddd`. */
  function ParseUnsignedDecimal(t: string): Option<real> {
    var n := DigitRun(t);
    if n == |t| then
      if n == 0 then None else Some(DigitsValue(t) as real)
    else if t[n] == '.' && AllDigits(t[n + 1..]) && (n > 0 || n + 1 < |t|) then
      Some(DigitsValue(t[..n]) as real + FractionValue(t[n + 1..]))
    else None
  }

  /** `float(s)` on decimal notation: surrounding whitespace, an optional sign,
      digits with an optional fraction. A bare run of digits reads as its value. */
  function ParseDecimal(s: string): (r: Option<real>)
    ensures s != [] && AllDigits(s) ==> r == Some(DigitsValue(s) as real)
  {
    assert AllDigits(s) ==> Strip(s) == s && s[..|s|] == s by {
      if AllDigits(s) {
        StripDigits(s);
      }
    }
    var (negative, body) := SignOf(Strip(s));
    match ParseUnsignedDecimal(body)
    case None => None
    case Some(v) => Some(if negative then -v else v)
  }

  lemma {:induction false} StripKeeps(s: string)
    requires s != [] && !IsSpace(s[0]) && !IsSpace(s[|s| - 1])
    ensures Strip(s) == s
  {
    assert TrimStart(s, None) == s;
  }

  lemma {:induction false} StripDigits(s: string)
    requires AllDigits(s)
    ensures Strip(s) == s
  {
    if s == [] {
      assert TrimStart([], None) == [];
    } else {
      assert IsDigit(s[0]) && IsDigit(s[|s| - 1]);
      StripKeeps(s);
    }
  }

  /** `int(str(n)) == n`. */
  lemma IntOfNatToString(n: nat)
    ensures ParseInt(NatToString(n)) == Some(n)
  {
    var s := NatToString(n);
    StripDigits(s);
    DigitsOfNat(n);
  }

  /** `float(str(n)) == n`. */
  lemma DecimalOfNatToString(n: nat)
    ensures ParseDecimal(NatToString(n)) == Some(n as real)
  {
    var s := NatToString(n);
    StripDigits(s);
    DigitsOfNat(n);
    assert s[..|s|] == s;
  }

  /** `float("<a>.<f>")` is `a` plus the fraction the digits `f` spell. */
  lemma {:induction false} DecimalValue(a: nat, f: string)
    requires AllDigits(f) && f != []
    ensures ParseDecimal(NatToString(a) + "." + f) == Some(a as real + FractionValue(f))
  {
    var d := NatToString(a);
    var s := d + "." + f;
    assert s[0] == d[0] && s[|s| - 1] == f[|f| - 1];
    StripKeeps(s);
    assert SignOf(s) == (false, s);
    var n := DigitRun(s);
    assert s[..|d|] == d && s[|d|] == '.';
    assert n == |d|;
    assert s[..n] == d && s[n + 1..] == f;
    DigitsOfNat(a);
  }
}
