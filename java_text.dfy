/** The pieces of Java's string handling that region file names go through:
    `%d` formatting of an `int`, `String.split("\\.")` and
    `Integer.parseInt`. Only ASCII digits are modelled. */
module JavaText {
  import opened Wrappers
  import opened Coords

  function DigitChar(d: nat): char
    requires d < 10
  {
    "0123456789"[d]
  }

  predicate IsDigit(c: char)
  {
    '0' <= c <= '9'
  }

  function DigitValue(c: char): nat
    requires IsDigit(c)
  {
    (c - '0') as nat
  }

  predicate AllDigits(s: string)
  {
    forall i :: 0 <= i < |s| ==> IsDigit(s[i])
  }

  /** The decimal digits of `n`, most significant first, no leading zero. */
  function Digits(n: nat): (s: string)
    ensures |s| > 0 && AllDigits(s)
  {
    if n < 10 then [DigitChar(n)] else Digits(n / 10) + [DigitChar(n % 10)]
  }

  /** The number a run of decimal digits denotes. */
  function DigitsValue(s: string): nat
    requires AllDigits(s)
  {
    if s == [] then 0 else DigitsValue(s[..|s| - 1]) * 10 + DigitValue(s[|s| - 1])
  }

  /** `"%d".formatted(n)`: a minus sign for negative numbers, then the digits. */
  function FormatInt(n: int): string
  {
    if n < 0 then "-" + Digits(-n) else Digits(n)
  }

  /** `Integer.parseInt(s)`: an optional sign, then one or more digits, whose
      value must fit an `int`; anything else is a `NumberFormatException`,
      here `None`. */
  function ParseInt(s: string): (r: Option<Int32>)
    ensures r.Some? ==> |s| > 0
  {
    if |s| == 0 then None
    else if s[0] == '-' || s[0] == '+' then
      var rest := s[1..];
      if |rest| == 0 || !AllDigits(rest) then None
      else
        var v: int := if s[0] == '-' then -(DigitsValue(rest) as int) else DigitsValue(rest);
        if -0x8000_0000 <= v < 0x8000_0000 then Some(v) else None
    else if !AllDigits(s) then None
    else if DigitsValue(s) < 0x8000_0000 then Some(DigitsValue(s))
    else None
  }

  /** The pieces of `s` between dots, `cur` prepended to the first, empty
      pieces kept. */
  function SplitFrom(s: string, cur: string): (parts: seq<string>)
    ensures |parts| > 0
  {
    if s == [] then [cur]
    else if s[0] == '.' then [cur] + SplitFrom(s[1..], [])
    else SplitFrom(s[1..], cur + [s[0]])
  }

  function DropTrailingEmpty(parts: seq<string>): seq<string>
  {
    if parts != [] && parts[|parts| - 1] == [] then DropTrailingEmpty(parts[..|parts| - 1]) else parts
  }

  /** `s.split("\\.")`: the pieces between dots with trailing empty pieces
      removed; without any dot, `s` itself. */
  function Split(s: string): (parts: seq<string>)
  {
    if '.' !in s then [s] else DropTrailingEmpty(SplitFrom(s, []))
  }

  // ---------------------------------------------------------------------------
  // Properties.

  lemma {:induction false} DigitsValueOfDigits(n: nat)
    ensures DigitsValue(Digits(n)) == n
  {
    if n >= 10 {
      DigitsValueOfDigits(n / 10);
      var s := Digits(n);
      assert s[..|s| - 1] == Digits(n / 10);
    }
  }

  /** `parseInt` reads back every `int` that `%d` writes. */
  lemma ParseFormat(n: Int32)
    ensures ParseInt(FormatInt(n)) == Some(n)
  {
    if n < 0 {
      var m: nat := -(n as int);
      DigitsValueOfDigits(m);
      var s := FormatInt(n);
      assert s[1..] == Digits(m);
    } else {
      DigitsValueOfDigits(n);
      assert FormatInt(n)[0] != '-' && FormatInt(n)[0] != '+';
    }
  }

  lemma NoDotInFormat(n: int)
    ensures '.' !in FormatInt(n)
  {
    var s := FormatInt(n);
    if n < 0 {
      assert s == "-" + Digits(-n);
      assert forall i :: 1 <= i < |s| ==> s[i] == Digits(-n)[i - 1];
    }
  }

  /** A dot-free stretch joins the piece in progress. */
  lemma {:induction false} SplitFromPiece(a: string, b: string, cur: string)
    requires '.' !in a
    ensures SplitFrom(a + b, cur) == SplitFrom(b, cur + a)
  {
    if a != [] {
      assert (a + b)[1..] == a[1..] + b;
      SplitFromPiece(a[1..], b, cur + [a[0]]);
      assert cur + [a[0]] + a[1..] == cur + a;
    } else {
      assert a + b == b && cur + a == cur;
    }
  }

  /** Splitting dot-free pieces joined by dots gives the pieces back. */
  lemma SplitFour(a: string, b: string, c: string, d: string)
    requires '.' !in a && '.' !in b && '.' !in c && '.' !in d && d != []
    ensures Split(a + "." + b + "." + c + "." + d) == [a, b, c, d]
  {
    var s := a + "." + b + "." + c + "." + d;
    var rb := "." + b + "." + c + "." + d;
    var rc := "." + c + "." + d;
    var rd := "." + d;
    assert s == a + rb && rb[1..] == b + rc && rc[1..] == c + rd && rd[1..] == d + [];
    SplitFromPiece(a, rb, []);
    SplitFromPiece(b, rc, []);
    SplitFromPiece(c, rd, []);
    SplitFromPiece(d, [], []);
    assert [] + a == a && [] + b == b && [] + c == c && [] + d == d;
    assert SplitFrom(rd, c) == [c] + SplitFrom(d, []) == [c, d];
    assert SplitFrom(rc, b) == [b] + SplitFrom(c + rd, []) == [b, c, d];
    assert SplitFrom(rb, a) == [a] + SplitFrom(b + rc, []) == [a, b, c, d];
    assert s[|a|] == '.';
    assert SplitFrom(s, []) == [a, b, c, d];
  }
}
