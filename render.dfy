/** Text rendering of the pagination bar: Python's `str` on integers and
    `" ".join`, each paired with the parser that undoes it. */
module Render {

  predicate IsDigit(ch: char) { '0' <= ch <= '9' }

  function DigitChar(d: int): (ch: char)
    requires 0 <= d < 10
    ensures IsDigit(ch) && ch as int - '0' as int == d
  {
    ('0' as int + d) as char
  }

  /** The decimal digits of a natural number, most significant first, no leading zeros. */
  function Digits(n: nat): (s: string)
    ensures |s| > 0
    ensures forall i :: 0 <= i < |s| ==> IsDigit(s[i])
    ensures |s| > 1 ==> s[0] != '0'
    decreases n
  {
    if n < 10 then [DigitChar(n)] else Digits(n / 10) + [DigitChar(n % 10)]
  }

  /** Python's `str(n)` for an integer. */
  function Decimal(n: int): (s: string)
    ensures |s| > 0 && ' ' !in s && IsDigit(s[|s| - 1])
  {
    if n < 0 then "-" + Digits(-n) else Digits(n)
  }

  /** The value of a string of decimal digits. */
  function DigitsValue(s: string): int
  {
    if s == [] then 0 else DigitsValue(s[..|s| - 1]) * 10 + (s[|s| - 1] as int - '0' as int)
  }

  /** Reads back what `Decimal` writes: an optional minus sign, then digits. */
  function ParseDecimal(s: string): int
  {
    if |s| > 0 && s[0] == '-' then -DigitsValue(s[1..]) else DigitsValue(s)
  }

  lemma {:induction false} DigitsRoundTrip(n: nat)
    ensures DigitsValue(Digits(n)) == n
    decreases n
  {
    if n >= 10 {
      var s := Digits(n);
      assert s[..|s| - 1] == Digits(n / 10);
      DigitsRoundTrip(n / 10);
    }
  }

  /** Parsing the decimal rendering of any integer gives that integer back. */
  lemma DecimalRoundTrip(n: int)
    ensures ParseDecimal(Decimal(n)) == n
  {
    if n < 0 {
      DigitsRoundTrip(-n);
      assert ("-" + Digits(-n))[1..] == Digits(-n);
    } else {
      DigitsRoundTrip(n);
      assert IsDigit(Digits(n)[0]);
    }
  }

  /** Python's `" ".join(tokens)`. */
  function Join(tokens: seq<string>): (r: string)
    ensures |tokens| > 0 ==> tokens[0] <= r
  {
    if |tokens| == 0 then ""
    else if |tokens| == 1 then tokens[0]
    else tokens[0] + " " + Join(tokens[1..])
  }

  /** Python's `s.split(" ")`: the pieces between single spaces. */
  function Split(s: string): (r: seq<string>)
    ensures |r| > 0
  {
    if s == [] then [""]
    else if s[0] == ' ' then [""] + Split(s[1..])
    else
      var rest := Split(s[1..]);
      [[s[0]] + rest[0]] + rest[1..]
  }

  /** A space-free prefix is glued onto the first piece of what follows it. */
  lemma {:induction false} SplitPrefix(t: string, rest: string)
    requires ' ' !in t
    ensures Split(t + rest) == [t + Split(rest)[0]] + Split(rest)[1..]
  {
    if t != [] {
      var r := Split(rest);
      assert t[0] in t;
      assert (t + rest)[0] == t[0] && (t + rest)[1..] == t[1..] + rest;
      SplitPrefix(t[1..], rest);
      assert [t[0]] + (t[1..] + r[0]) == t + r[0];
    } else {
      var r := Split(rest);
      assert t + rest == rest && t + r[0] == r[0];
      assert r == [r[0]] + r[1..];
    }
  }

  /** Joining non-empty lists of space-free tokens and splitting the line again
      gives back the tokens. */
  lemma {:induction false} SplitJoin(tokens: seq<string>)
    requires |tokens| > 0
    requires forall i :: 0 <= i < |tokens| ==> ' ' !in tokens[i]
    ensures Split(Join(tokens)) == tokens
    decreases |tokens|
  {
    if |tokens| == 1 {
      SplitPrefix(tokens[0], "");
      assert tokens[0] + "" == tokens[0];
    } else {
      var rest := Join(tokens[1..]);
      assert Join(tokens) == tokens[0] + (" " + rest);
      SplitPrefix(tokens[0], " " + rest);
      SplitJoin(tokens[1..]);
      assert Split(" " + rest) == [""] + Split(rest) by {
        assert (" " + rest)[1..] == rest;
      }
      assert tokens[0] + "" == tokens[0];
      assert tokens == [tokens[0]] + tokens[1..];
    }
  }
}
