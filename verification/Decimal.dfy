/** Decimal numerals as cursors carry them: Python's str of a natural number, and its int of a text. */
module Decimal {
  import opened Wrappers
  import opened Utf8

  function Digit(d: int): Byte
    requires 0 <= d <= 9
  {
    48 + d
  }

  /** str(n). */
  function Numeral(n: nat): (r: seq<Byte>)
    ensures r != []
  {
    if n < 10 then [Digit(n)] else Numeral(n / 10) + [Digit(n % 10)]
  }

  predicate IsDigit(c: int) { 48 <= c <= 57 }

  predicate IsSpace(c: int) { 9 <= c <= 13 || c == 32 }

  function StripLeft(s: seq<int>): seq<int> {
    if s != [] && IsSpace(s[0]) then StripLeft(s[1..]) else s
  }

  function StripRight(s: seq<int>): seq<int> {
    if s != [] && IsSpace(s[|s| - 1]) then StripRight(s[..|s| - 1]) else s
  }

  /** Digits, with single underscores between them. */
  function ParseDigits(s: seq<int>): Option<nat> {
    if s == [] || !IsDigit(s[|s| - 1]) then None
    else if |s| == 1 then Some(s[0] - 48)
    else
      var front := if s[|s| - 2] == 95 then s[..|s| - 2] else s[..|s| - 1];
      match ParseDigits(front)
      case None => None
      case Some(m) => Some(10 * m + (s[|s| - 1] - 48))
  }

  /** int(s): white space around, a sign, and digits. */
  function ParseInt(s: seq<int>): Option<int> {
    var t := StripRight(StripLeft(s));
    if t == [] then None
    else if t[0] == 43 then (var d := ParseDigits(t[1..]); if d.None? then None else Some(d.value))
    else if t[0] == 45 then (var d := ParseDigits(t[1..]); if d.None? then None else Some(0 - d.value as int))
    else var d := ParseDigits(t); if d.None? then None else Some(d.value)
  }

  lemma {:induction false} NumeralDigits(n: nat)
    ensures forall c | c in Numeral(n) :: IsDigit(c)
  {
    if n >= 10 { NumeralDigits(n / 10); }
  }

  lemma {:induction false} DigitsOfNumeral(n: nat)
    ensures ParseDigits(Numeral(n)) == Some(n)
  {
    if n >= 10 {
      var front := Numeral(n / 10);
      DigitsOfNumeral(n / 10);
      NumeralDigits(n / 10);
      assert Numeral(n)[..|Numeral(n)| - 1] == front;
      assert front[|front| - 1] in front;
    }
  }

  /** Reading a numeral gives back the number. */
  lemma {:induction false} ParseNumeral(n: nat)
    ensures ParseInt(Numeral(n)) == Some(n)
  {
    DigitsOfNumeral(n);
    NumeralDigits(n);
    var s := Numeral(n);
    assert s[0] in s && s[|s| - 1] in s;
    hide Numeral, ParseDigits;
  }

  /** Numerals of different numbers differ. */
  lemma NumeralInjective(m: nat, n: nat)
    requires Numeral(m) == Numeral(n)
    ensures m == n
  {
    DigitsOfNumeral(m);
    DigitsOfNumeral(n);
  }

  /** Digits only, the first of them no zero: how a positive number is written. */
  predicate IsPlain(s: seq<int>) { s != [] && (forall c | c in s :: IsDigit(c)) && s[0] != 48 }

  lemma {:induction false} PlainIsNumeral(s: seq<int>)
    requires IsPlain(s)
    ensures ParseDigits(s).Some? && ParseDigits(s).value >= 1 && Numeral(ParseDigits(s).value) == s
  {
    var last := s[|s| - 1];
    assert last in s;
    if |s| > 1 {
      var front := s[..|s| - 1];
      assert s[|s| - 2] in s;
      assert IsPlain(front);
      PlainIsNumeral(front);
      var m := ParseDigits(front).value;
      assert (10 * m + (last - 48)) / 10 == m && (10 * m + (last - 48)) % 10 == last - 48;
      assert s == front + [last];
    }
  }

  lemma {:induction false} NumeralIsPlain(n: nat)
    requires n >= 1
    ensures IsPlain(Numeral(n))
  {
    NumeralDigits(n);
    if n >= 10 { NumeralIsPlain(n / 10); }
  }

  /** A text that reads as a positive number is that number's numeral exactly when it is plain. */
  lemma NumeralIffPlain(s: seq<int>, n: nat)
    requires ParseInt(s) == Some(n) && n >= 1
    ensures s == Numeral(n) <==> IsPlain(s)
  {
    if IsPlain(s) {
      PlainIsNumeral(s);
      assert s[0] in s && s[|s| - 1] in s;
      hide Numeral, ParseDigits;
      assert StripRight(StripLeft(s)) == s;
    } else {
      NumeralIsPlain(n);
    }
  }
}
