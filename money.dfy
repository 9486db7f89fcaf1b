/** Money amounts as integer cents, their two-decimal rendering (the ledger's
    `round`) and the fixed-width currency cell of a statement (`format`). */
module Money {

  /** The currency symbol in front of every non-blank money cell. */
  const POUND: char := '\U{00A3}'
  /** Width of one money cell of a statement line. */
  const CELL_WIDTH: nat := 10

  datatype Option<T> = None | Some(value: T)

  predicate IsDigit(c: char) { '0' <= c <= '9' }

  predicate AllDigits(s: string) { forall i :: 0 <= i < |s| ==> IsDigit(s[i]) }

  function DigitChar(d: nat): (c: char)
    requires d < 10
    ensures IsDigit(c) && DigitValue(c) == d
  {
    (48 + d) as char
  }

  function DigitValue(c: char): nat
    requires IsDigit(c)
  {
    c as int - 48
  }

  /** The decimal digits of `n`, most significant first, without leading zeros. */
  function NatToDecimal(n: nat): (s: string)
    ensures |s| >= 1 && AllDigits(s)
    ensures s[0] == '0' ==> n == 0
    decreases n
  {
    if n < 10 then [DigitChar(n)] else NatToDecimal(n / 10) + [DigitChar(n % 10)]
  }

  /** The value of a string of decimal digits (the empty string is 0). */
  function DecimalValue(s: string): nat
    requires AllDigits(s)
  {
    if s == [] then 0 else DecimalValue(s[..|s| - 1]) * 10 + DigitValue(s[|s| - 1])
  }

  lemma {:induction false} DecimalRoundTrip(n: nat)
    ensures DecimalValue(NatToDecimal(n)) == n
    decreases n
  {
    var s := NatToDecimal(n);
    if n < 10 {
      assert s[..|s| - 1] == [];
    } else {
      assert s[..|s| - 1] == NatToDecimal(n / 10);
      DecimalRoundTrip(n / 10);
    }
  }

  /** A non-negative cent amount with exactly two fraction digits. */
  function RenderUnsigned(m: nat): string
  {
    NatToDecimal(m / 100) + "." + [DigitChar(m / 10 % 10), DigitChar(m % 10)]
  }

  /** `round`: a cent amount rendered with exactly two fraction digits, a
      leading '-' for a negative amount ("15.00", "1.20", "-0.50").
      Rendering loses nothing: the amount can be read back from it. */
  function Round(cents: int): (r: string)
    ensures ParseMoney(r) == Some(cents)
  {
    if cents < 0 then
      ParseRenderUnsigned(-cents);
      assert ("-" + RenderUnsigned(-cents))[1..] == RenderUnsigned(-cents);
      "-" + RenderUnsigned(-cents)
    else
      ParseRenderUnsigned(cents);
      RenderUnsigned(cents)
  }

  /** Reads back an unsigned two-decimal rendering: at least one integer
      digit, '.', and exactly two fraction digits. */
  function ParseUnsigned(s: string): Option<nat>
  {
    if |s| < 4 || s[|s| - 3] != '.' then None
    else
      var whole, fraction := s[..|s| - 3], s[|s| - 2..];
      if !AllDigits(whole) || !AllDigits(fraction) then None
      else Some(DecimalValue(whole) * 100 + DecimalValue(fraction))
  }

  /** Reads back a two-decimal rendering, with an optional leading '-'. */
  function ParseMoney(s: string): Option<int>
  {
    if s != [] && s[0] == '-' then
      match ParseUnsigned(s[1..])
      case Some(v) => Some(-(v as int))
      case None => None
    else
      match ParseUnsigned(s)
      case Some(v) => Some(v)
      case None => None
  }

  /** The shape of a rendered amount: a sign exactly for negative amounts,
      then at least one integer digit, '.', and two fraction digits. */
  lemma RoundShape(cents: int)
    ensures var r := Round(cents);
      |r| >= 4 && r[|r| - 3] == '.' && AllDigits(r[|r| - 2..]) &&
      (r[0] == '-' <==> cents < 0) && IsDigit(r[if cents < 0 then 1 else 0])
  {
  }

  lemma TwoDigitValue(a: nat, b: nat)
    requires a < 10 && b < 10
    ensures DecimalValue([DigitChar(a), DigitChar(b)]) == a * 10 + b
  {
    var s := [DigitChar(a), DigitChar(b)];
    assert s[..1] == [DigitChar(a)];
    assert [DigitChar(a)][..0] == [];
    assert DecimalValue([DigitChar(a)]) == a;
  }

  lemma CentsSplit(m: nat)
    ensures m / 100 * 100 + (m / 10 % 10) * 10 + m % 10 == m
  {
  }

  lemma ParseRenderUnsigned(m: nat)
    ensures ParseUnsigned(RenderUnsigned(m)) == Some(m)
  {
    var a, b := m / 10 % 10, m % 10;
    var whole, fraction := NatToDecimal(m / 100), [DigitChar(a), DigitChar(b)];
    var s := whole + "." + fraction;
    assert s == RenderUnsigned(m);
    assert s[..|s| - 3] == whole;
    assert s[|s| - 2..] == fraction;
    DecimalRoundTrip(m / 100);
    TwoDigitValue(a, b);
    CentsSplit(m);
  }

  /** Distinct amounts have distinct renderings. */
  lemma RoundInjective(a: int, b: int)
    requires Round(a) == Round(b)
    ensures a == b
  {
  }

  function Spaces(n: nat): string
  {
    seq(n, _ => ' ')
  }

  /** `padStart`: left-pads with spaces up to `width`; never truncates. */
  function PadLeft(s: string, width: nat): (r: string)
    ensures |r| == if |s| < width then width else |s|
    decreases width - |s|
  {
    if |s| < width then PadLeft([' '] + s, width) else s
  }

  /** Padding puts exactly the missing number of spaces in front. */
  lemma {:induction false} PadLeftSpaces(s: string, width: nat)
    ensures PadLeft(s, width) == Spaces(if |s| < width then width - |s| else 0) + s
    decreases width - |s|
  {
    if |s| < width {
      var k := width - |s|;
      PadLeftSpaces([' '] + s, width);
      assert Spaces(k - 1) + ([' '] + s) == Spaces(k) + s by {
        assert Spaces(k - 1) + [' '] == Spaces(k);
      }
    } else {
      assert Spaces(0) + s == s;
    }
  }

  /** The rendering of a zero amount. */
  const ZERO_CELL: string := "0.00"

  /** A money cell that shows nothing: the blank sentinel or a zero amount. */
  predicate IsBlankCell(cell: string) { cell == "" || cell == ZERO_CELL }

  /** `format`: a money cell right-aligned behind the currency symbol in a
      field of CELL_WIDTH characters; a blank or zero cell is all spaces. */
  function Format(cell: string): (r: string)
    ensures IsBlankCell(cell) ==> r == Spaces(CELL_WIDTH)
    ensures |r| == if IsBlankCell(cell) || |cell| < CELL_WIDTH then CELL_WIDTH else |cell| + 1
  {
    if IsBlankCell(cell) then Spaces(CELL_WIDTH) else PadLeft([POUND] + cell, CELL_WIDTH)
  }

  /** A blank or zero cell formats to CELL_WIDTH spaces; any other cell to
      the currency symbol and the cell, right-aligned behind spaces in a
      field of CELL_WIDTH characters, or one wider than the cell when it
      does not fit. */
  lemma FormatCell(cell: string)
    ensures IsBlankCell(cell) ==> Format(cell) == Spaces(CELL_WIDTH)
    ensures !IsBlankCell(cell) ==>
      |Format(cell)| == (if |cell| < CELL_WIDTH then CELL_WIDTH else |cell| + 1) &&
      Format(cell) == Spaces(|Format(cell)| - |cell| - 1) + [POUND] + cell
  {
    if !IsBlankCell(cell) {
      PadLeftSpaces([POUND] + cell, CELL_WIDTH);
      var k := if |cell| + 1 < CELL_WIDTH then CELL_WIDTH - |cell| - 1 else 0;
      assert Spaces(k) + ([POUND] + cell) == Spaces(k) + [POUND] + cell;
    }
  }

  function TrimLeadingSpaces(s: string): (r: string)
    ensures |r| <= |s| && (r != [] ==> r[0] != ' ')
  {
    if s != [] && s[0] == ' ' then TrimLeadingSpaces(s[1..]) else s
  }

  /** Reads the amount back out of a formatted cell: drops the padding and
      the currency symbol. */
  function Unformat(cell: string): string
  {
    var t := TrimLeadingSpaces(cell);
    if t != [] && t[0] == POUND then t[1..] else t
  }

  lemma {:induction false} TrimSpacesPrefix(k: nat, s: string)
    requires s == [] || s[0] != ' '
    ensures TrimLeadingSpaces(Spaces(k) + s) == s
    decreases k
  {
    if k > 0 {
      assert (Spaces(k) + s)[1..] == Spaces(k - 1) + s;
      TrimSpacesPrefix(k - 1, s);
    } else {
      assert Spaces(k) + s == s;
    }
  }

  lemma UnformatPadded(x: string)
    requires x == [] || x[0] != ' '
    ensures Unformat(PadLeft([POUND] + x, CELL_WIDTH)) == x
  {
    var s := [POUND] + x;
    PadLeftSpaces(s, CELL_WIDTH);
    TrimSpacesPrefix(if |s| < CELL_WIDTH then CELL_WIDTH - |s| else 0, s);
    assert s[1..] == x;
  }

  /** Unformat undoes Format on any cell that starts with no blank; a
      blank or zero cell reads back as blank. */
  lemma UnformatFormat(cell: string)
    requires cell == [] || cell[0] != ' '
    ensures Unformat(Format(cell)) == if IsBlankCell(cell) then "" else cell
  {
    if IsBlankCell(cell) {
      BlankCellFormat();
    } else {
      UnformatPadded(cell);
    }
  }

  /** Zero renders as the zero cell. */
  lemma RoundZero()
    ensures Round(0) == ZERO_CELL
  {
  }

  /** A rendered amount is blank exactly when the amount is zero. */
  lemma RoundBlank(cents: int)
    ensures IsBlankCell(Round(cents)) <==> cents == 0
  {
    RoundZero();
    RoundShape(cents);
    if Round(cents) == ZERO_CELL {
      RoundInjective(cents, 0);
    }
  }

  /** Formatting a rendered amount is undone by Unformat; a zero amount
      formats to an all-blank cell that reads back as blank. */
  lemma FormatRoundTrip(cents: int)
    ensures cents != 0 ==> Unformat(Format(Round(cents))) == Round(cents)
    ensures cents == 0 ==> Format(Round(cents)) == Spaces(CELL_WIDTH) && Unformat(Format(Round(cents))) == ""
  {
    RoundBlank(cents);
    RoundShape(cents);
    UnformatFormat(Round(cents));
  }

  lemma BlankCellFormat()
    ensures Unformat(Spaces(CELL_WIDTH)) == ""
  {
    TrimSpacesPrefix(CELL_WIDTH, []);
    assert Spaces(CELL_WIDTH) + [] == Spaces(CELL_WIDTH);
  }
}
