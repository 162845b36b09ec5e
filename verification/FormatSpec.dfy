/** What a format prints: the text of each conversion and the reading of a format string,
    without any regard to the buffer the text goes to. */
module FormatSpec {
  import opened Arith

  const INT_MAX := 0x7fff_ffff

  datatype Option<T> = None | Some(value: T)

  /** An argument of the call. */
  datatype Arg = Int(value: int) | Text(chars: seq<char>) | Null

  datatype Length = Plain | CharSize | ShortSize | LongSize | LongLong | LongDouble | SizeT | Ptrdiff | Intmax

  datatype Flags = Flags(minus: bool, plus: bool, space: bool, num: bool, zero: bool, quote: bool)

  /** What stands between '%' and the conversion character; a precision of -1 is none. */
  datatype Directive = Directive(flags: Flags, width: int, precision: int, length: Length)

  const NO_FLAGS := Flags(false, false, false, false, false, false)
  const BARE := Directive(NO_FLAGS, 0, -1, Plain)

  /** The environment of the formatter: the separator of digit groups, and the printer of
      floating-point numbers, which gives no text when the number is too large. */
  datatype Locale = Locale(separator: seq<char>, float: (Arg, char, Directive) -> Option<seq<char>>)

  function Pad(c: char, n: int): (r: seq<char>)
    ensures |r| == Max(n, 0)
    ensures forall i :: 0 <= i < |r| ==> r[i] == c
  {
    if n <= 0 then [] else [c] + Pad(c, n - 1)
  }

  // ---------------------------------------------------------------- strings

  /** The characters of a string that are printed: up to a NUL, and to the precision. */
  function Shown(chars: seq<char>, precision: int): seq<char> {
    if chars == [] || chars[0] == '\0' || precision == 0 then []
    else [chars[0]] + Shown(chars[1..], if precision == -1 then -1 else precision - 1)
  }

  function StrText(chars: seq<char>, width: int, precision: int, minus: bool): seq<char> {
    var shown := Shown(chars, precision);
    if minus then shown + Pad(' ', width - |shown|) else Pad(' ', width - |shown|) + shown
  }

  // ---------------------------------------------------------------- integers

  function DigitChar(d: nat, up: bool): char
    requires d < 16
  {
    if d < 10 then '0' + d as char else (if up then 'A' else 'a') + (d - 10) as char
  }

  /** The digits of v, most significant first. */
  function Digits(v: nat, base: nat, up: bool): (r: seq<char>)
    requires 2 <= base <= 16
    ensures |r| >= 1
  {
    if v < base then [DigitChar(v, up)] else Digits(v / base, base, up) + [DigitChar(v % base, up)]
  }

  const UINTMAX: nat := 0x1_0000_0000_0000_0000

  /** How an integer is to be printed. */
  datatype Style = Style(base: nat, unsigned: bool, up: bool)

  function Magnitude(value: int, st: Style): nat {
    if st.unsigned then value % UINTMAX else if value >= 0 then value else -value
  }

  function Sign(value: int, st: Style, f: Flags): seq<char> {
    if st.unsigned then []
    else if value < 0 then ['-']
    else if f.plus then ['+']
    else if f.space then [' ']
    else []
  }

  function Prefix(value: int, st: Style, f: Flags): seq<char> {
    if f.num && Magnitude(value, st) != 0 && st.base == 16 then ['0', if st.up then 'X' else 'x'] else []
  }

  /** The precision, raised where an octal number has to start with a zero. */
  function IntPrecision(value: int, digits: nat, precision: int, st: Style, f: Flags): int {
    if f.num && Magnitude(value, st) != 0 && st.base == 8 && precision <= digits then digits + 1 else precision
  }

  /** The digits with separators between groups of three. */
  function Grouped(digits: seq<char>, separator: seq<char>): seq<char> {
    if digits == [] then []
    else [digits[0]] + (if |digits| > 1 && (|digits| - 1) % 3 == 0 then separator else []) + Grouped(digits[1..], separator)
  }

  /** The number of characters that separators take up among n digits. */
  function SeparatorLength(n: nat, separator: seq<char>): nat {
    if n == 0 then 0 else (n - if n % 3 == 0 then 1 else 0) / 3 * |separator|
  }

  /** The digits, with separators if there are any. */
  function Body(digits: seq<char>, separators: nat, separator: seq<char>): seq<char> {
    if separators > 0 then Grouped(digits, separator) else digits
  }

  /** The parts of an integer; a negative padding stands behind it. */
  function Layout(spaces: int, sign: seq<char>, prefix: seq<char>, zeros: int, body: seq<char>): seq<char> {
    Pad(' ', spaces) + sign + prefix + Pad('0', zeros) + body + Pad(' ', -spaces)
  }

  function DigitsOf(value: int, st: Style): (r: seq<char>)
    requires 2 <= st.base <= 16
  {
    Digits(Magnitude(value, st), st.base, st.up)
  }

  function Separators(n: nat, f: Flags, separator: seq<char>): nat {
    if f.quote then SeparatorLength(n, separator) else 0
  }

  /** The zeros that the precision asks for. */
  function Zeros(n: nat, precision: int, seps: nat): nat { Max(precision - n - seps, 0) }

  /** What is left of the field. */
  function Spaces(width: int, seps: nat, precision: int, n: nat, lead: nat): nat {
    Max(width - seps - Max(precision, n) - lead, 0)
  }

  /** The field is filled with zeros. */
  predicate ZeroFilled(d: Directive) { !d.flags.minus && d.flags.zero && d.precision == -1 }

  /** The room around the integer: spaces before it, or behind it if negative; and zeros. */
  function Padding(value: int, n: nat, seps: nat, st: Style, d: Directive): (int, nat) {
    var precision := IntPrecision(value, n, d.precision, st, d.flags);
    var lead := |Sign(value, st, d.flags)| + |Prefix(value, st, d.flags)|;
    var zeros, spaces := Zeros(n, precision, seps), Spaces(d.width, seps, precision, n, lead);
    if d.flags.minus then (0 - spaces, zeros) else if ZeroFilled(d) then (0, zeros + spaces) else (spaces, zeros)
  }

  function IntText(value: int, st: Style, d: Directive, separator: seq<char>): seq<char>
    requires 2 <= st.base <= 16
  {
    var digits := DigitsOf(value, st);
    var seps := Separators(|digits|, d.flags, separator);
    var (spaces, zeros) := Padding(value, |digits|, seps, st, d);
    Layout(spaces, Sign(value, st, d.flags), Prefix(value, st, d.flags), zeros, Body(digits, seps, separator))
  }

  // ---------------------------------------------------------------- arguments

  function Wrap(v: int, bits: nat): (r: nat) { v % Pow2(bits) }

  function WrapSigned(v: int, bits: nat): int
    requires bits > 0
  {
    var w := Wrap(v, bits);
    if w < Pow2(bits - 1) then w else w - Pow2(bits)
  }

  function Bits(l: Length): (b: nat)
    ensures b > 0
  {
    match l
    case CharSize => 8
    case ShortSize => 16
    case Plain => 32
    case LongDouble => 32
    case LongSize => 64
    case LongLong => 64
    case SizeT => 64
    case Ptrdiff => 64
    case Intmax => 64
  }

  /** The next argument; what a call with too few arguments reads is arbitrary, here Null. */
  function Next(args: seq<Arg>): Arg { if args == [] then Null else args[0] }

  function Rest(args: seq<Arg>): seq<Arg> { if args == [] then [] else args[1..] }

  function AsInt(a: Arg): int { if a.Int? then a.value else 0 }

  function IntArg(a: Arg): int { WrapSigned(AsInt(a), 32) }

  function AsChars(a: Arg): seq<char> { if a.Text? then a.chars else "(null)" }

  // ---------------------------------------------------------------- conversions

  predicate TakesInt(c: char) { c in "diXxou" }

  predicate TakesFloat(c: char) { c in "AFafEeGg" }

  predicate Consumes(c: char) { TakesInt(c) || TakesFloat(c) || c in "cspn" }

  function StyleOf(c: char): (st: Style)
    ensures 2 <= st.base <= 16
  {
    if c in "di" then Style(10, false, false)
    else if c in "Xxp" then Style(16, true, c == 'X')
    else if c == 'o' then Style(8, true, false)
    else Style(10, true, false)
  }

  function IntValue(a: Arg, c: char, l: Length): int {
    if c in "di" then WrapSigned(AsInt(a), Bits(l)) else Wrap(AsInt(a), Bits(l))
  }

  /** The text of one conversion, or None if it is too large to be made. */
  function ConvText(lc: Locale, d: Directive, c: char, a: Arg): Option<seq<char>> {
    if TakesInt(c) then Some(IntText(IntValue(a, c, d.length), StyleOf(c), d, lc.separator))
    else if TakesFloat(c) then lc.float(a, c, d)
    else if c == 'c' then Some([(AsInt(a) % 256) as char])
    else if c == 's' then Some(StrText(AsChars(a), d.width, d.precision, d.flags.minus))
    else if c == 'p' then
      if Wrap(AsInt(a), 64) == 0 then Some(StrText("(nil)", d.width, -1, d.flags.minus))
      else Some(IntText(Wrap(AsInt(a), 64), StyleOf(c), d.(flags := d.flags.(num := true)), lc.separator))
    else if c == '%' then Some("%")
    else Some("")
  }

  // ---------------------------------------------------------------- the format string

  /** The result of reading a directive: complete, with the format from the conversion
      character on; cut off by the end of the format; or with too large a number in it. */
  datatype Parsed = Ready(d: Directive, rest: string, args: seq<Arg>) | Ended | TooLarge

  predicate AtEnd(s: string) { s == [] || s[0] == '\0' }

  predicate IsFlag(c: char) { c in "-+ #0'" }

  function SetFlag(f: Flags, c: char): Flags {
    match c
    case '-' => f.(minus := true)
    case '+' => f.(plus := true)
    case ' ' => f.(space := true)
    case '#' => f.(num := true)
    case '0' => f.(zero := true)
    case _ => f.(quote := true)
  }

  predicate IsDigit(c: char) { '0' <= c <= '9' }

  function DigitValue(c: char): nat
    requires IsDigit(c)
  {
    (c - '0') as nat
  }

  /** A number with one more digit would be too large. */
  predicate Overflows(n: int, digit: nat)
    requires digit <= 9
  {
    n > (INT_MAX - digit) / 10
  }

  predicate Within(p: Parsed, n: nat) { p.Ready? ==> 0 < |p.rest| <= n }

  function FromFlags(s: string, d: Directive, args: seq<Arg>): (p: Parsed)
    ensures Within(p, |s|)
  {
    if AtEnd(s) then Ended
    else if IsFlag(s[0]) then FromFlags(s[1..], d.(flags := SetFlag(d.flags, s[0])), args)
    else FromWidth(s, d, args)
  }

  function StarWidth(d: Directive, w: int): Directive {
    if w < 0 then d.(flags := d.flags.(minus := true), width := -w) else d.(width := w)
  }

  function FromWidth(s: string, d: Directive, args: seq<Arg>): (p: Parsed)
    ensures Within(p, |s|)
  {
    if AtEnd(s) then Ended
    else if IsDigit(s[0]) then
      var v := DigitValue(s[0]);
      if Overflows(d.width, v) then TooLarge else FromWidth(s[1..], d.(width := 10 * d.width + v), args)
    else if s[0] == '*' then FromDot(s[1..], StarWidth(d, IntArg(Next(args))), Rest(args))
    else FromDot(s, d, args)
  }

  function FromDot(s: string, d: Directive, args: seq<Arg>): (p: Parsed)
    ensures Within(p, |s|)
  {
    if AtEnd(s) then Ended
    else if s[0] == '.' then FromPrecision(s[1..], d, args)
    else FromLength(s, d, args)
  }

  function FromPrecision(s: string, d: Directive, args: seq<Arg>): (p: Parsed)
    ensures Within(p, |s|)
  {
    var precision := if d.precision == -1 then 0 else d.precision;
    if AtEnd(s) then Ended
    else if IsDigit(s[0]) then
      var v := DigitValue(s[0]);
      if Overflows(precision, v) then TooLarge else FromPrecision(s[1..], d.(precision := 10 * precision + v), args)
    else if s[0] == '*' then FromLength(s[1..], d.(precision := Max(IntArg(Next(args)), -1)), Rest(args))
    else FromLength(s, d.(precision := precision), args)
  }

  /** The length modifier that s starts with, and the number of its characters. */
  function LengthAt(s: string): (r: (Length, nat))
    requires s != []
    ensures r.1 <= |s|
  {
    var twice := |s| > 1 && s[1] == s[0];
    match s[0]
    case 'h' => if twice then (CharSize, 2) else (ShortSize, 1)
    case 'l' => if twice then (LongLong, 2) else (LongSize, 1)
    case 'L' => (LongDouble, 1)
    case 'j' => (Intmax, 1)
    case 't' => (Ptrdiff, 1)
    case 'z' => (SizeT, 1)
    case _ => (Plain, 0)
  }

  function FromLength(s: string, d: Directive, args: seq<Arg>): (p: Parsed)
    ensures Within(p, |s|)
  {
    if AtEnd(s) then Ended else
      var (length, n) := LengthAt(s);
      FromConv(s[n..], d.(length := length), args)
  }

  function FromConv(s: string, d: Directive, args: seq<Arg>): (p: Parsed)
    ensures Within(p, |s|)
  {
    if AtEnd(s) then Ended else Ready(d, s, args)
  }

  // ---------------------------------------------------------------- the whole output

  /** The text of a format, and whether printing stopped at something too large. */
  datatype Output = Output(text: seq<char>, overflow: bool)

  function Then(text: seq<char>, o: Output): Output { o.(text := text + o.text) }

  /** What the format prints. */
  function Render(lc: Locale, s: string, args: seq<Arg>): Output
    decreases |s|, 0
  {
    if AtEnd(s) then Output([], false)
    else if s[0] != '%' then Then([s[0]], Render(lc, s[1..], args))
    else Finish(lc, FromFlags(s[1..], BARE, args))
  }

  /** What is printed once a directive is read. */
  function Finish(lc: Locale, p: Parsed): Output
    requires p.Ready? ==> p.rest != []
    decreases if p.Ready? then |p.rest| else 0, 1
  {
    match p
    case Ended => Output([], false)
    case TooLarge => Output([], true)
    case Ready(d, rest, args) =>
      var text := ConvText(lc, d, rest[0], Next(args));
      if text.None? then Output([], true)
      else Then(text.value, Render(lc, rest[1..], if Consumes(rest[0]) then Rest(args) else args))
  }
}
