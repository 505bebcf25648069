/** Spreadsheet cells, sheets, and the two text helpers the loader relies on:
    recognising a numeric token (helpers.functions.is_number together with
    Python's float()) and rendering numbers as text (f-strings). The helpers
    module is not part of this model; the definitions here are stand-ins
    whose contracts say what the loader needs of them. */
module Cells {
  import opened Errors

  /** A float bound as produced by float(): finite, NaN, or infinite. */
  datatype Bound = Fin(x: real) | NaN | NegInf | PosInf

  /** A pandas DataFrame: column headers and rows of cells. */
  datatype Sheet = Sheet(headers: seq<string>, rows: seq<seq<Cell>>) {
    /** Every row has one cell per column, as in any DataFrame. */
    ghost predicate Rectangular() {
      forall r :: 0 <= r < |rows| ==> |rows[r]| == |headers|
    }
  }

  /** sheet['name']: the first column with that header, KeyError otherwise. */
  function Column(sheet: Sheet, name: string): (r: Result<seq<Cell>>)
    requires sheet.Rectangular()
    ensures r.Err? <==> name !in sheet.headers
    ensures r.Err? ==> r.error == KeyError(Str(name))
    ensures r.Ok? ==> |r.value| == |sheet.rows|
  {
    ColumnFrom(sheet, name, 0)
  }

  /** The column found is the cells of one column headed by the name. */
  lemma ColumnCells(sheet: Sheet, name: string)
    requires sheet.Rectangular() && name in sheet.headers
    ensures exists c :: 0 <= c < |sheet.headers| && sheet.headers[c] == name &&
              forall k :: 0 <= k < |sheet.rows| ==> Column(sheet, name).value[k] == sheet.rows[k][c]
  {
    assert sheet.headers[0..] == sheet.headers;
  }

  function ColumnFrom(sheet: Sheet, name: string, c: nat): (r: Result<seq<Cell>>)
    requires sheet.Rectangular() && c <= |sheet.headers|
    ensures r.Err? <==> name !in sheet.headers[c..]
    ensures r.Err? ==> r.error == KeyError(Str(name))
    ensures r.Ok? ==> |r.value| == |sheet.rows|
    ensures r.Ok? ==> exists c' :: c <= c' < |sheet.headers| && sheet.headers[c'] == name &&
                        forall k :: 0 <= k < |sheet.rows| ==> r.value[k] == sheet.rows[k][c']
    decreases |sheet.headers| - c
  {
    if c == |sheet.headers| then Err(KeyError(Str(name)))
    else if sheet.headers[c] == name then Ok(seq(|sheet.rows|, k requires 0 <= k < |sheet.rows| => sheet.rows[k][c]))
    else
      assert sheet.headers[c..] == [sheet.headers[c]] + sheet.headers[c + 1..];
      ColumnFrom(sheet, name, c + 1)
  }

  /** row[k] on a numpy row: IndexError past its end. */
  function At(row: seq<Cell>, k: nat): (r: Result<Cell>)
    ensures r.Ok? <==> k < |row|
    ensures r.Ok? ==> r.value == row[k]
    ensures r.Err? ==> r.error == IndexError(RowTooShort(k))
  {
    if k < |row| then Ok(row[k]) else Err(IndexError(RowTooShort(k)))
  }

  predicate IsDigit(c: char) { '0' <= c <= '9' }

  predicate AllDigits(t: string) { forall i :: 0 <= i < |t| ==> IsDigit(t[i]) }

  /** Position of the first '.', or |t| when there is none. */
  function DotIndex(t: string): (k: nat)
    ensures k <= |t|
    ensures forall i :: 0 <= i < k ==> t[i] != '.'
    ensures k < |t| ==> t[k] == '.'
  {
    if t == [] || t[0] == '.' then 0 else 1 + DotIndex(t[1..])
  }

  /** A numeric token: digits, optionally one '.' followed by digits, with
      at least one digit in all. */
  predicate IsNumber(t: string) {
    var k := DotIndex(t);
    && AllDigits(t[..k])
    && (k == |t| || AllDigits(t[k + 1..]))
    && |t| > (if k < |t| then 1 else 0)
  }

  function DigitsValue(t: string): (n: nat)
    requires AllDigits(t)
  {
    if t == [] then 0 else 10 * DigitsValue(t[..|t| - 1]) + (t[|t| - 1] as int - '0' as int)
  }

  function Pow10(n: nat): (p: nat)
    ensures p >= 1
  {
    if n == 0 then 1 else 10 * Pow10(n - 1)
  }

  /** float(t) for a numeric token. */
  function ParseNumber(t: string): (x: real)
    requires IsNumber(t)
    ensures x >= 0.0
  {
    var k := DotIndex(t);
    if k == |t| then DigitsValue(t) as real
    else DigitsValue(t[..k]) as real + DigitsValue(t[k + 1..]) as real / Pow10(|t| - k - 1) as real
  }

  /** The blanks str.strip() removes that are ASCII: space, tab, line
      feed, vertical tab, form feed, carriage return and the four
      separators from file separator to unit separator. */
  predicate IsBlank(c: char) {
    c == ' ' || '\t' <= c <= '\r' || '\U{1C}' <= c <= '\U{1F}'
  }

  /** The text without its leading blanks. */
  function StripLeft(s: string): string {
    if s != [] && IsBlank(s[0]) then StripLeft(s[1..]) else s
  }

  /** The text without its trailing blanks. */
  function StripRight(s: string): string {
    if s != [] && IsBlank(s[|s| - 1]) then StripRight(s[..|s| - 1]) else s
  }

  /** StripLeft removes exactly the leading blanks. */
  lemma {:induction false} StripLeftMeaning(s: string)
    ensures var t := StripLeft(s);
            && |t| <= |s| && t == s[|s| - |t|..]
            && (t == [] || !IsBlank(t[0]))
            && forall i :: 0 <= i < |s| - |t| ==> IsBlank(s[i])
    decreases |s|
  {
    if s != [] && IsBlank(s[0]) {
      StripLeftMeaning(s[1..]);
      var t := StripLeft(s[1..]);
      assert s[1..][|s| - 1 - |t|..] == s[|s| - |t|..];
      forall i | 1 <= i < |s| - |t| ensures IsBlank(s[i]) {
        assert s[1..][i - 1] == s[i];
      }
    }
  }

  /** StripRight removes exactly the trailing blanks. */
  lemma {:induction false} StripRightMeaning(s: string)
    ensures var t := StripRight(s);
            && |t| <= |s| && t == s[..|t|]
            && (t == [] || !IsBlank(t[|t| - 1]))
            && forall i :: |t| <= i < |s| ==> IsBlank(s[i])
    decreases |s|
  {
    if s != [] && IsBlank(s[|s| - 1]) {
      StripRightMeaning(s[..|s| - 1]);
      var t := StripRight(s[..|s| - 1]);
      assert s[..|s| - 1][..|t|] == s[..|t|];
      forall i | |t| <= i < |s| - 1 ensures IsBlank(s[i]) {
        assert s[..|s| - 1][i] == s[i];
      }
    }
  }

  function Lower(c: char): char {
    if 'A' <= c <= 'Z' then (c as int + 32) as char else c
  }

  /** The text spells the lower-case word in any case. */
  predicate Spells(t: string, word: string) {
    |t| == |word| && forall i :: 0 <= i < |t| ==> Lower(t[i]) == word[i]
  }

  predicate IsInfinity(t: string) {
    Spells(t, "inf") || Spells(t, "infinity")
  }

  /** Position of the first 'e' or 'E', or |t| when there is none. */
  function ExpIndex(t: string): (k: nat)
    ensures k <= |t|
    ensures forall i :: 0 <= i < k ==> t[i] != 'e' && t[i] != 'E'
    ensures k < |t| ==> t[k] == 'e' || t[k] == 'E'
  {
    if t == [] || t[0] == 'e' || t[0] == 'E' then 0 else 1 + ExpIndex(t[1..])
  }

  /** The exponent of a decimal literal: an optional sign and at least one
      digit. */
  function Exponent(t: string): Option<int> {
    var digits := if t != [] && (t[0] == '+' || t[0] == '-') then t[1..] else t;
    if digits != [] && AllDigits(digits) then
      var n: int := DigitsValue(digits);
      Some(if t[0] == '-' then -n else n)
    else None
  }

  /** x times ten to the power e. */
  function Scale(x: real, e: int): real {
    if e >= 0 then x * Pow10(e) as real else x / Pow10(-e) as real
  }

  /** A decimal literal: a numeric token, optionally followed by 'e' or
      'E' and an exponent. */
  function Decimal(t: string): Option<real> {
    var k := ExpIndex(t);
    if !IsNumber(t[..k]) then None
    else if k == |t| then Some(ParseNumber(t[..k]))
    else match Exponent(t[k + 1..])
         case None => None
         case Some(e) => Some(Scale(ParseNumber(t[..k]), e))
  }

  /** float(text): blanks around the text are ignored; what is left is an
      optional sign followed by inf, infinity or nan in any case, or by a
      decimal literal. Anything else has no value. */
  function FloatText(s: string): Option<Bound> {
    Signed(StripRight(StripLeft(s)))
  }

  function Signed(t: string): Option<Bound> {
    if t != [] && t[0] == '-' then Negate(Unsigned(t[1..]))
    else if t != [] && t[0] == '+' then Unsigned(t[1..])
    else Unsigned(t)
  }

  function Negate(b: Option<Bound>): Option<Bound> {
    match b
    case Some(Fin(x)) => Some(Fin(-x))
    case Some(PosInf) => Some(NegInf)
    case Some(NegInf) => Some(PosInf)
    case _ => b
  }

  function Unsigned(t: string): Option<Bound> {
    if IsInfinity(t) then Some(PosInf)
    else if Spells(t, "nan") then Some(NaN)
    else match Decimal(t)
         case None => None
         case Some(x) => Some(Fin(x))
  }

  /** float(cell) where the source needs a bound: a number is itself, a
      blank cell is NaN, and a text is read as float() reads it. */
  function ToBound(c: Cell): (r: Result<Bound>)
    ensures c.Num? ==> r == Ok(Fin(c.x))
    ensures c.Missing? ==> r == Ok(NaN)
    ensures c.Str? ==> (r.Ok? <==> FloatText(c.s).Some?)
    ensures c.Str? && r.Err? ==> r.error == ValueError(c.s)
  {
    match c
    case Num(x) => Ok(Fin(x))
    case Missing => Ok(NaN)
    case Str(s) =>
      match FloatText(s)
      case Some(b) => Ok(b)
      case None => Err(ValueError(s))
  }

  /** A numeric token is made of digits and at most one '.'. */
  lemma NumberChars(t: string)
    requires IsNumber(t)
    ensures t != [] && forall i :: 0 <= i < |t| ==> IsDigit(t[i]) || t[i] == '.'
  {
    var k := DotIndex(t);
    forall i | 0 <= i < |t| ensures IsDigit(t[i]) || t[i] == '.' {
      if i < k {
        assert t[..k][i] == t[i];
      } else if i > k {
        assert t[k + 1..][i - k - 1] == t[i];
      }
    }
  }

  /** Text with no blank at either end is not stripped. */
  lemma Unstripped(t: string)
    requires t != [] && !IsBlank(t[0]) && !IsBlank(t[|t| - 1])
    ensures FloatText(t) == Signed(t)
  {
    assert StripLeft(t) == t;
  }

  /** Unsigned text that needs no stripping is read as its unsigned body. */
  lemma PlainBound(t: string)
    requires t != [] && !IsBlank(t[0]) && !IsBlank(t[|t| - 1]) && t[0] != '+' && t[0] != '-'
    ensures FloatText(t) == Unsigned(t)
  {
    Unstripped(t);
  }

  /** A sign before such text is read as float() reads a sign. */
  lemma SignBound(sign: char, t: string)
    requires t != [] && !IsBlank(t[0]) && !IsBlank(t[|t| - 1])
    requires sign == '+' || sign == '-'
    ensures FloatText([sign] + t) == if sign == '-' then Negate(Unsigned(t)) else Unsigned(t)
  {
    var st := [sign] + t;
    assert st[1..] == t && st[|st| - 1] == t[|t| - 1];
    Unstripped(st);
  }

  /** A text starting with a digit or '.' is no word. */
  lemma NotAWord(t: string)
    requires t != [] && (IsDigit(t[0]) || t[0] == '.')
    ensures Unsigned(t) == match Decimal(t) case None => None case Some(x) => Some(Fin(x))
  {
    assert Lower(t[0]) == t[0];
    assert !Spells(t, "inf") by { assert "inf"[0] == 'i'; }
    assert !Spells(t, "infinity") by { assert "infinity"[0] == 'i'; }
    assert !Spells(t, "nan") by { assert "nan"[0] == 'n'; }
  }

  /** A finite reading carries over to both signs. */
  lemma SignedFin(t: string, x: real)
    requires t != [] && !IsBlank(t[0]) && !IsBlank(t[|t| - 1]) && t[0] != '+' && t[0] != '-'
    requires Unsigned(t) == Some(Fin(x))
    ensures ToBound(Str(t)) == Ok(Fin(x))
    ensures ToBound(Str("+" + t)) == Ok(Fin(x))
    ensures ToBound(Str("-" + t)) == Ok(Fin(-x))
  {
    PlainBound(t);
    SignBound('+', t);
    SignBound('-', t);
    NegateFin(Unsigned(t), x);
  }

  lemma NegateFin(b: Option<Bound>, x: real)
    requires b == Some(Fin(x))
    ensures Negate(b) == Some(Fin(-x))
  {
  }

  /** The bounds of a numeric token: float() gives the number x the token
      reads as, and a leading sign applies to it. */
  lemma NumberBound(t: string, x: real)
    requires IsNumber(t) && x == ParseNumber(t)
    ensures ToBound(Str(t)) == Ok(Fin(x))
    ensures ToBound(Str("+" + t)) == Ok(Fin(x))
    ensures ToBound(Str("-" + t)) == Ok(Fin(-x))
  {
    NumberUnsigned(t);
    SignedFin(t, x);
  }

  lemma NumberUnsigned(t: string)
    requires IsNumber(t)
    ensures t != [] && !IsBlank(t[0]) && !IsBlank(t[|t| - 1]) && t[0] != '+' && t[0] != '-'
    ensures Unsigned(t) == Some(Fin(ParseNumber(t)))
  {
    NumberChars(t);
    assert ExpIndex(t) == |t|;
    assert t[..|t|] == t;
    NotAWord(t);
  }

  /** A numeric token with an exponent: m e d is m scaled up by ten to
      the d, and m E-d is m scaled down by ten to the d. */
  lemma ExponentBound(m: string, d: string)
    requires IsNumber(m) && d != [] && AllDigits(d)
    ensures ToBound(Str(m + "e" + d)) == Ok(Fin(Scale(ParseNumber(m), DigitsValue(d))))
    ensures ToBound(Str(m + "E-" + d)) == Ok(Fin(Scale(ParseNumber(m), -(DigitsValue(d) as int))))
  {
    NumberChars(m);
    ExponentDigits(d);
    assert "e"[1..] + d == d && "E-"[1..] + d == "-" + d;
    ScaledBound(m, "e", d, DigitsValue(d));
    ScaledBound(m, "E-", d, -(DigitsValue(d) as int));
  }

  /** The exponent of plain digits, and of digits after a minus sign. */
  lemma ExponentDigits(d: string)
    requires d != [] && AllDigits(d)
    ensures Exponent(d) == Some(DigitsValue(d) as int)
    ensures Exponent("-" + d) == Some(-(DigitsValue(d) as int))
  {
    assert ("-" + d)[1..] == d;
  }

  lemma ScaledBound(m: string, e: string, d: string, n: int)
    requires IsNumber(m) && m != [] && (forall i :: 0 <= i < |m| ==> IsDigit(m[i]) || m[i] == '.')
    requires e in ["e", "E-"] && d != [] && AllDigits(d)
    requires Exponent(e[1..] + d) == Some(n)
    ensures ToBound(Str(m + e + d)) == Ok(Fin(Scale(ParseNumber(m), n)))
  {
    var t := m + e + d;
    ExponentSplit(m, e, d);
    DecimalAt(t, m, e[1..] + d, n);
    NotAWord(t);
    SignedFin(t, Scale(ParseNumber(m), n));
  }

  lemma DecimalAt(t: string, m: string, rest: string, n: int)
    requires IsNumber(m) && ExpIndex(t) == |m| < |t| && t[..|m|] == m && t[|m| + 1..] == rest
    requires Exponent(rest) == Some(n)
    ensures Decimal(t) == Some(Scale(ParseNumber(m), n))
  {
  }

  lemma ExponentSplit(m: string, e: string, d: string)
    requires m != [] && (forall i :: 0 <= i < |m| ==> IsDigit(m[i]) || m[i] == '.')
    requires e in ["e", "E-"] && d != []
    ensures var t := m + e + d;
            && ExpIndex(t) == |m| && t[..|m|] == m && t[|m| + 1..] == e[1..] + d
            && t[0] == m[0] && t[|t| - 1] == d[|d| - 1]
  {
    var t := m + e + d;
    assert t[|m|] == e[0];
    forall i | 0 <= i < |m| ensures t[i] != 'e' && t[i] != 'E' {
      assert t[i] == m[i];
    }
    assert t[..|m|] == m;
    assert t[|m| + 1..] == e[1..] + d;
  }

  /** inf, infinity and nan are read in any case, with an optional sign;
      a sign has no effect on nan. */
  lemma WordBound(w: string)
    requires IsInfinity(w) || Spells(w, "nan")
    ensures var b := if IsInfinity(w) then PosInf else NaN;
            ToBound(Str(w)) == Ok(b) && ToBound(Str("+" + w)) == Ok(b)
    ensures ToBound(Str("-" + w)) == Ok(if IsInfinity(w) then NegInf else NaN)
  {
    WordUnsigned(w);
    PlainBound(w);
    SignBound('+', w);
    SignBound('-', w);
  }

  lemma WordUnsigned(w: string)
    requires IsInfinity(w) || Spells(w, "nan")
    ensures w != [] && !IsBlank(w[0]) && !IsBlank(w[|w| - 1]) && w[0] != '+' && w[0] != '-'
    ensures Unsigned(w) == Some(if IsInfinity(w) then PosInf else NaN)
  {
    assert Lower(w[0]) == 'i' || Lower(w[0]) == 'n';
    assert Lower(w[|w| - 1]) in "fyn";
  }

  /** A blank before or after the text changes nothing but the text the
      ValueError quotes. */
  lemma PaddedBound(s: string, c: char)
    requires IsBlank(c)
    ensures ToBound(Str([c] + s)).Ok? <==> ToBound(Str(s)).Ok?
    ensures ToBound(Str(s + [c])).Ok? <==> ToBound(Str(s)).Ok?
    ensures ToBound(Str(s)).Ok? ==> ToBound(Str([c] + s)) == ToBound(Str(s)) == ToBound(Str(s + [c]))
  {
    assert ([c] + s)[0] == c && ([c] + s)[1..] == s;
    assert StripLeft([c] + s) == StripLeft(s);
    StripAppendBlank(s, c);
    assert FloatText([c] + s) == FloatText(s);
    assert FloatText(s + [c]) == FloatText(s);
  }

  lemma {:induction false} StripAppendBlank(s: string, c: char)
    requires IsBlank(c)
    ensures StripRight(StripLeft(s + [c])) == StripRight(StripLeft(s))
    decreases |s|
  {
    if s != [] && IsBlank(s[0]) {
      assert (s + [c])[1..] == s[1..] + [c];
      StripAppendBlank(s[1..], c);
    } else if s != [] {
      assert (s + [c])[..|s|] == s;
    }
  }

  /** Texts float() refuses: the empty text, an exponent without digits,
      and a decimal comma. */
  lemma RefusedBounds()
    ensures ToBound(Str("")) == Err(ValueError(""))
    ensures ToBound(Str("1e")) == Err(ValueError("1e"))
    ensures ToBound(Str("1,5")) == Err(ValueError("1,5"))
  {
    assert FloatText("") == None;
    NoDigitsAfterExponent();
    DecimalComma();
  }

  lemma NoDigitsAfterExponent()
    ensures FloatText("1e") == None
  {
    Unstripped("1e");
    NotAWord("1e");
    assert ExpIndex("1e") == 1 && "1e"[..1] == "1" && "1e"[2..] == "";
  }

  lemma DecimalComma()
    ensures FloatText("1,5") == None
  {
    Unstripped("1,5");
    NotAWord("1,5");
    assert ExpIndex("1,5") == 3 && "1,5"[..3] == "1,5";
    assert !IsDigit("1,5"[1]);
  }

  /** Decimal text of a natural number. */
  function NatText(n: nat): (t: string)
    ensures |t| > 0 && AllDigits(t)
    ensures DigitsValue(t) == n
  {
    if n < 10 then [('0' as int + n) as char]
    else
      var t := NatText(n / 10) + [('0' as int + n % 10) as char];
      assert t[..|t| - 1] == NatText(n / 10);
      t
  }

  /** Decimal text of an integer, as str(int) gives it. */
  function IntText(n: int): (t: string)
    ensures |t| > 0
    ensures n >= 0 ==> t == NatText(n)
    ensures n < 0 ==> t[0] == '-'
  {
    if n >= 0 then NatText(n) else "-" + NatText(-n)
  }

  /** Up to `places` decimal digits of a fraction in [0, 1), stopping when
      the expansion terminates. */
  function FractionDigits(f: real, places: nat): (t: string)
    requires 0.0 <= f < 1.0
    ensures AllDigits(t) && |t| <= places
    decreases places
  {
    if places == 0 || f == 0.0 then ""
    else
      var d := (10.0 * f).Floor;
      var digit := if d < 0 then 0 else if d > 9 then 9 else d;
      var rest := 10.0 * f - digit as real;
      [('0' as int + digit) as char] + (if 0.0 <= rest < 1.0 then FractionDigits(rest, places - 1) else "")
  }

  /** Text of a number cell in an f-string: integral values as an int
      prints, others with up to sixteen decimals. */
  function NumberText(x: real): (t: string)
    ensures |t| > 0
    ensures x == x.Floor as real ==> t == IntText(x.Floor)
  {
    if x == x.Floor as real then IntText(x.Floor)
    else
      var a := if x < 0.0 then -x else x;
      (if x < 0.0 then "-" else "") + IntText(a.Floor) + "." + FractionDigits(a - a.Floor as real, 16)
  }

  /** f"{cell}" for a cell that is text or a number. */
  function CellText(c: Cell): (t: string)
    requires !c.Missing?
    ensures c.Str? ==> t == c.s
  {
    match c
    case Str(s) => s
    case Num(x) => NumberText(x)
  }
}
