/**
  The three QString operations the compiler relies on: toLower(), toInt() and
  QString::number(int).
  */
module QtString {
  import opened Decimal

  // ---------------------------------------------------------------- toLower

  predicate IsUpper(c: char)
  {
    'A' <= c <= 'Z'
  }

  /** No upper-case letter anywhere in `s`. */
  predicate IsLower(s: string)
  {
    forall i :: 0 <= i < |s| ==> !IsUpper(s[i])
  }

  function LowerChar(c: char): (d: char)
    ensures !IsUpper(d)
    ensures !IsUpper(c) ==> d == c
  {
    if IsUpper(c) then (c as int - 'A' as int + 'a' as int) as char else c
  }

  /** QString::toLower on ASCII letters: every letter A-Z becomes a-z and every
      other character is kept, position by position. */
  function Lower(s: string): (r: string)
    ensures |r| == |s| && IsLower(r)
    ensures forall i :: 0 <= i < |s| ==> r[i] == LowerChar(s[i])
    decreases |s|
  {
    if |s| == 0 then [] else [LowerChar(s[0])] + Lower(s[1..])
  }

  /** A string is its own lower-case form exactly when it has no upper-case letter. */
  lemma LowerFixpoint(s: string)
    ensures Lower(s) == s <==> IsLower(s)
  {
    if IsLower(s) {
      assert forall i :: 0 <= i < |s| ==> Lower(s)[i] == s[i];
    }
  }

  /** Lower-casing twice is lower-casing once. */
  lemma LowerIdempotent(s: string)
    ensures Lower(Lower(s)) == Lower(s)
  {
    LowerFixpoint(Lower(s));
  }

  // ------------------------------------------------------ toInt and number

  const IntMin: int := -0x8000_0000
  const IntMax: int := 0x7fff_ffff

  predicate IsInt32(v: int)
  {
    IntMin <= v <= IntMax
  }

  /** The part of `s` after an optional leading sign. */
  function Unsigned(s: string): string
  {
    if |s| > 0 && (s[0] == '-' || s[0] == '+') then s[1..] else s
  }

  /** An optional sign followed by at least one ASCII digit. */
  predicate IsNumeral(s: string)
  {
    |Unsigned(s)| > 0 && AllDigits(Unsigned(s))
  }

  /** QString::toInt in base 10: the value of a signed decimal numeral when it
      fits in a 32-bit int, and 0 for anything else (the conversion failing). */
  function ToInt(s: string): (v: int)
    ensures IsInt32(v)
    ensures !IsNumeral(s) ==> v == 0
  {
    var digits := Unsigned(s);
    if |digits| == 0 || !AllDigits(digits) then 0
    else
      var m: int := if s[0] == '-' then 0 - Value(digits) as int else Value(digits);
      if IsInt32(m) then m else 0
  }

  /** QString::number for an int: a minus sign for negative values, then the
      canonical numeral of the magnitude. */
  function ShowInt(v: int): (s: string)
    ensures IsNumeral(s)
  {
    if v < 0 then "-" + Show(0 - v) else Show(v)
  }

  /** toInt reads back every 32-bit value that QString::number writes. */
  lemma ToIntShowInt(v: int)
    requires IsInt32(v)
    ensures ToInt(ShowInt(v)) == v
  {
    if v < 0 {
      assert Unsigned(ShowInt(v)) == Show(-v);
      ValueOfShow(-v);
    } else {
      assert Unsigned(ShowInt(v)) == Show(v);
      ValueOfShow(v);
    }
  }

  /** A numeral too large for 32 bits converts to 0. */
  lemma ToIntOverflow(n: nat)
    requires n > IntMax
    ensures ToInt(Show(n)) == 0
    ensures ToInt("-" + Show(n + 1)) == 0
  {
    assert Unsigned(Show(n)) == Show(n);
    ValueOfShow(n);
    assert Unsigned("-" + Show(n + 1)) == Show(n + 1);
    ValueOfShow(n + 1);
  }
}
