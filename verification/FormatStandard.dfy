/** The text that section 7.19.6.1 of ISO/IEC 9899:1999 asks for, and exactly when the
    formatter prints it. */
module FormatStandard {
  import opened Arith
  import opened FormatSpec
  import opened FormatLaws

  /** The digits of a number, expanded with zeros to the precision.  Zero has no digits of its
      own; the default precision is 1.  In the alternative form an octal number starts with a
      zero. */
  function Number(magnitude: nat, st: Style, d: Directive): seq<char>
    requires 2 <= st.base <= 16
  {
    var digits := if magnitude == 0 then [] else Digits(magnitude, st.base, st.up);
    var precision := if d.precision < 0 then 1 else d.precision;
    var number := Pad('0', precision - |digits|) + digits;
    if d.flags.num && st.base == 8 && (number == [] || number[0] != '0') then ['0'] + number else number
  }

  /** What stands before the number: a sign for signed conversions, "0x" for nonzero numbers
      in the alternative form. */
  function Lead(value: int, st: Style, d: Directive): seq<char> {
    (if st.unsigned then [] else if value < 0 then "-" else if d.flags.plus then "+" else if d.flags.space then " " else [])
    + (if d.flags.num && st.base == 16 && Magnitude(value, st) != 0 then (if st.up then "0X" else "0x") else [])
  }

  /** The number in its field.  The '0' flag is ignored next to '-' or a precision. */
  function StandardText(value: int, st: Style, d: Directive): seq<char>
    requires 2 <= st.base <= 16
  {
    var lead, number := Lead(value, st, d), Number(Magnitude(value, st), st, d);
    var room := d.width - |lead| - |number|;
    if d.flags.minus then lead + number + Pad(' ', room)
    else if d.flags.zero && d.precision < 0 then lead + Pad('0', room) + number
    else Pad(' ', room) + lead + number
  }

  /** Zero is printed with precision zero, and not as an octal number that starts with a zero. */
  predicate ZeroAtZero(value: int, st: Style, d: Directive) {
    Magnitude(value, st) == 0 && d.precision == 0 && !(d.flags.num && st.base == 8)
  }

  lemma {:induction false} PadAdds(c: char, a: int, b: int)
    requires 0 <= a && 0 <= b
    ensures Pad(c, a) + Pad(c, b) == Pad(c, a + b)
  {
    if a > 0 { PadAdds(c, a - 1, b); }
  }

  /** The digits that the formatter prints, with the zeros of the precision. */
  function Printed(value: int, st: Style, d: Directive): seq<char>
    requires 2 <= st.base <= 16
  {
    var digits := DigitsOf(value, st);
    Pad('0', IntPrecision(value, |digits|, d.precision, st, d.flags) - |digits|) + digits
  }

  lemma PrintedZero(value: int, st: Style, d: Directive)
    requires 2 <= st.base <= 16 && d.precision >= -1 && Magnitude(value, st) == 0
    ensures Printed(value, st, d) == if ZeroAtZero(value, st, d) then ['0'] else Number(0, st, d)
  {
    assert DigitsOf(value, st) == ['0'];
    assert Pad('0', 1) == ['0'];
    if d.precision >= 1 { PadAdds('0', d.precision - 1, 1); }
  }

  lemma PrintedNumber(value: int, st: Style, d: Directive)
    requires 2 <= st.base <= 16 && d.precision >= -1 && Magnitude(value, st) != 0
    ensures Printed(value, st, d) == Number(Magnitude(value, st), st, d)
  {
    var digits := DigitsOf(value, st);
    FirstDigit(Magnitude(value, st), st.base, st.up);
    if d.flags.num && st.base == 8 && d.precision <= |digits| {
      assert Pad('0', 1) == ['0'];
      var precision := if d.precision < 0 then 1 else d.precision;
      assert Pad('0', precision - |digits|) == [];
    }
  }

  lemma SameLead(value: int, st: Style, d: Directive)
    ensures Lead(value, st, d) == Sign(value, st, d.flags) + Prefix(value, st, d.flags)
  {}

  /** Without separators the formatter prints the digits in a field like the standard's. */
  lemma FieldIsStandard(value: int, st: Style, d: Directive, separator: seq<char>)
    requires 2 <= st.base <= 16 && d.precision >= -1 && !d.flags.quote
    ensures var lead, number := Lead(value, st, d), Printed(value, st, d);
            var room := d.width - |lead| - |number|;
            IntText(value, st, d, separator)
            == if d.flags.minus then lead + number + Pad(' ', room)
               else if d.flags.zero && d.precision < 0 then lead + Pad('0', room) + number
               else Pad(' ', room) + lead + number
  {
    var digits := DigitsOf(value, st);
    var n := |digits|;
    var precision := IntPrecision(value, n, d.precision, st, d.flags);
    var zeros := Max(precision - n, 0);
    SameLead(value, st, d);
    var sign, prefix := Sign(value, st, d.flags), Prefix(value, st, d.flags);
    var room := d.width - |Lead(value, st, d)| - |Printed(value, st, d)|;
    PadFloor('0', precision - n);
    PadFloor('0', room);
    PadFloor(' ', room);
    PlainPadding(value, st, d);
    FieldParts(sign, prefix, zeros, Max(room, 0), digits, d.flags.minus, ZeroFilled(d));
  }

  /** The room around the integer, told from the parts that are printed. */
  lemma PlainPadding(value: int, st: Style, d: Directive)
    requires 2 <= st.base <= 16 && d.precision >= -1
    ensures var n := |DigitsOf(value, st)|;
            var zeros := Max(IntPrecision(value, n, d.precision, st, d.flags) - n, 0);
            var spaces := Max(d.width - |Lead(value, st, d)| - |Printed(value, st, d)|, 0);
            Padding(value, n, 0, st, d)
            == (if d.flags.minus then 0 - spaces else if ZeroFilled(d) then 0 else spaces,
                if ZeroFilled(d) then zeros + spaces else zeros)
  {
    var n := |DigitsOf(value, st)|;
    var precision := IntPrecision(value, n, d.precision, st, d.flags);
    SameLead(value, st, d);
    PrintedLength(value, st, d);
    var lead := |Sign(value, st, d.flags)| + |Prefix(value, st, d.flags)|;
    assert Zeros(n, precision, 0) == Max(precision - n, 0);
    assert Spaces(d.width, 0, precision, n, lead) == Max(d.width - lead - Max(precision, n), 0);
  }

  lemma PrintedLength(value: int, st: Style, d: Directive)
    requires 2 <= st.base <= 16
    ensures var n := |DigitsOf(value, st)|;
            |Printed(value, st, d)| == Max(IntPrecision(value, n, d.precision, st, d.flags), n)
  {}

  lemma PadFloor(c: char, n: int)
    ensures Pad(c, n) == Pad(c, Max(n, 0))
  {}

  lemma LeftAligned(s: seq<char>, p: seq<char>, z: seq<char>, b: seq<char>, k: seq<char>)
    ensures [] + s + p + z + b + k == (s + p) + (z + b) + k
  {}

  lemma RightAligned(k: seq<char>, s: seq<char>, p: seq<char>, z: seq<char>, b: seq<char>)
    ensures k + s + p + z + b + [] == k + (s + p) + (z + b)
  {}

  lemma Filled(s: seq<char>, p: seq<char>, k: seq<char>, z: seq<char>, b: seq<char>)
    ensures [] + s + p + (k + z) + b + [] == (s + p) + k + (z + b)
  {}

  lemma FieldParts(sign: seq<char>, prefix: seq<char>, zeros: nat, spaces: nat, digits: seq<char>, minus: bool, zero: bool)
    requires !(minus && zero)
    ensures Layout(if minus then 0 - spaces else if zero then 0 else spaces, sign, prefix, if zero then zeros + spaces else zeros, digits)
         == if minus then (sign + prefix) + (Pad('0', zeros) + digits) + Pad(' ', spaces)
            else if zero then (sign + prefix) + Pad('0', spaces) + (Pad('0', zeros) + digits)
            else Pad(' ', spaces) + (sign + prefix) + (Pad('0', zeros) + digits)
  {
    assert Pad(' ', 0 - spaces) == [] && Pad(' ', 0) == [] && -(0 - spaces) == spaces;
    if minus {
      LeftAligned(sign, prefix, Pad('0', zeros), digits, Pad(' ', spaces));
    } else if zero {
      PadAdds('0', spaces, zeros);
      Filled(sign, prefix, Pad('0', spaces), Pad('0', zeros), digits);
    } else {
      RightAligned(Pad(' ', spaces), sign, prefix, Pad('0', zeros), digits);
    }
  }

  /** For every value, base, flag mix without the quote flag, width and precision, the
      formatter prints the standard's text if and only if it does not print zero with
      precision zero. */
  lemma IntegerIsStandard(value: int, st: Style, d: Directive, separator: seq<char>)
    requires 2 <= st.base <= 16 && d.precision >= -1 && !d.flags.quote
    ensures IntText(value, st, d, separator) == StandardText(value, st, d) <==> !ZeroAtZero(value, st, d)
  {
    FieldIsStandard(value, st, d, separator);
    if ZeroAtZero(value, st, d) {
      PrintedZero(value, st, d);
      ZeroIsExtra(value, st, d, separator);
    } else if Magnitude(value, st) == 0 {
      PrintedZero(value, st, d);
    } else {
      PrintedNumber(value, st, d);
    }
  }

  /** There the standard's text has no digit, and the formatter's has one. */
  lemma ZeroIsExtra(value: int, st: Style, d: Directive, separator: seq<char>)
    requires 2 <= st.base <= 16 && !d.flags.quote && ZeroAtZero(value, st, d)
    ensures '0' !in StandardText(value, st, d) && '0' in IntText(value, st, d, separator)
  {
    assert Number(0, st, d) == [];
    var digits := DigitsOf(value, st);
    assert digits == ['0'];
    var (spaces, zeros) := Padding(value, 1, 0, st, d);
    var front := Pad(' ', spaces) + Sign(value, st, d.flags) + Prefix(value, st, d.flags) + Pad('0', zeros);
    assert IntText(value, st, d, separator) == front + ['0'] + Pad(' ', -spaces);
    assert (front + ['0'] + Pad(' ', -spaces))[|front|] == '0';
  }

  lemma NothingAround(k: seq<char>, lead: seq<char>, number: seq<char>)
    requires k == [] && lead == []
    ensures k + lead + number == number
  {}

  lemma PlainZero(value: int, st: Style, d: Directive, separator: seq<char>)
    requires 2 <= st.base <= 16 && Magnitude(value, st) == 0 && d.width == 0 && d.precision == 0 && d.flags == NO_FLAGS
    requires value == 0
    ensures StandardText(value, st, d) == [] && IntText(value, st, d, separator) == ['0']
  {
    var lead, number, printed := Lead(value, st, d), Number(Magnitude(value, st), st, d), Printed(value, st, d);
    assert lead == [] && number == [];
    NothingAround(Pad(' ', d.width - |lead| - |number|), lead, number);
    assert StandardText(value, st, d) == Pad(' ', d.width - |lead| - |number|) + lead + number;
    PrintedZero(value, st, d);
    assert printed == ['0'];
    NothingAround(Pad(' ', d.width - |lead| - |printed|), lead, printed);
    FieldIsStandard(value, st, d, separator);
  }

  /** "%.0d" of 0: the standard asks for nothing, the formatter prints "0". */
  lemma ZeroAtZeroPrints()
    ensures var st, d := Style(10, false, false), BARE.(precision := 0);
            StandardText(0, st, d) == [] && IntText(0, st, d, ",") == ['0']
  {
    PlainZero(0, Style(10, false, false), BARE.(precision := 0), ",");
  }

  // ---------------------------------------------------------------- strings and characters

  /** A text in its field: spaces on the left, or on the right with the '-' flag. */
  function Field(text: seq<char>, d: Directive): seq<char> {
    var room := Pad(' ', d.width - |text|);
    if d.flags.minus then text + room else room + text
  }

  /** The number of characters before the terminating NUL. */
  function StringLength(chars: seq<char>): (n: nat)
    ensures n <= |chars| && (n == |chars| || chars[n] == '\0')
    ensures '\0' !in chars[..n]
  {
    if chars == [] || chars[0] == '\0' then 0 else
      assert chars[..1 + StringLength(chars[1..])] == [chars[0]] + chars[1..][..StringLength(chars[1..])];
      1 + StringLength(chars[1..])
  }

  /** The characters before the terminating NUL, and no more than the precision. */
  function Written(chars: seq<char>, d: Directive): seq<char> {
    var n := StringLength(chars);
    if 0 <= d.precision < n then chars[..d.precision] else chars[..n]
  }

  lemma WrittenIsShown(chars: seq<char>, d: Directive)
    requires d.precision >= -1
    ensures Written(chars, d) == Shown(chars, d.precision)
  {
    var n, shown := StringLength(chars), Shown(chars, d.precision);
    ShownIsPrefix(chars, d.precision);
    assert |shown| < n ==> chars[..n][|shown|] == chars[|shown|];
  }

  /** For every string, width, precision and flags the text of "%s" is the standard's. */
  lemma StringIsStandard(lc: Locale, d: Directive, chars: seq<char>)
    requires d.precision >= -1
    ensures ConvText(lc, d, 's', Text(chars)) == Some(Field(Written(chars, d), d))
  {
    WrittenIsShown(chars, d);
  }

  /** The standard's text of "%c": the argument as an unsigned char, in its field. */
  function StandardChar(a: Arg, d: Directive): seq<char> { Field([(AsInt(a) % 256) as char], d) }

  /** The text of "%c" is the standard's if and only if the field has room for one character
      at most, because the formatter ignores the width there. */
  lemma CharIsStandard(lc: Locale, d: Directive, a: Arg)
    ensures ConvText(lc, d, 'c', a) == Some(StandardChar(a, d)) <==> d.width <= 1
    ensures ConvText(lc, d, 'c', a).Some? && |ConvText(lc, d, 'c', a).value| == 1
    ensures |StandardChar(a, d)| == Max(d.width, 1)
  {
    var text := [(AsInt(a) % 256) as char];
    if d.width <= 1 {
      assert Pad(' ', d.width - 1) == [];
      assert text + [] == text && [] + text == text;
    }
  }

  /** "%2c" of 'x': the standard asks for " x", the formatter prints "x". */
  lemma NarrowChar(lc: Locale)
    ensures StandardChar(Int(120), BARE.(width := 2)) == [' ', 'x']
    ensures ConvText(lc, BARE.(width := 2), 'c', Int(120)) == Some(['x'])
  {
    assert (120 % 256) as char == 'x';
    assert Pad(' ', 1) == [' '] + Pad(' ', 0);
  }
}
