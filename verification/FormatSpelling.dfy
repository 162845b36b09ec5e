/** A format means what its directives say: a list of directives, spelled out as a format
    string, prints the texts of the directives one after the other. */
module FormatSpelling {
  import opened Arith
  import opened FormatSpec
  import opened FormatLaws

  /** A width or a precision: not there, a number, or taken from an argument. */
  datatype Amount = Absent | Number(n: nat) | Star

  datatype Piece =
    | Literal(c: char)
    | Conversion(flags: seq<char>, width: Amount, precision: Amount, length: Length, conv: char)

  /** A character that can end a directive. */
  predicate IsConv(c: char) {
    !IsFlag(c) && !IsDigit(c) && c !in "*.hlLjtz" && c != '\0'
  }

  predicate WellFormed(p: Piece) {
    match p
    case Literal(c) => c != '%' && c != '\0'
    case Conversion(flags, width, _, _, conv) =>
      (forall i :: 0 <= i < |flags| ==> IsFlag(flags[i])) && width != Number(0) && IsConv(conv)
  }

  // ---------------------------------------------------------------- the spelling

  function SpellWidth(a: Amount): string {
    match a
    case Absent => ""
    case Number(n) => Digits(n, 10, false)
    case Star => "*"
  }

  function SpellPrecision(a: Amount): string {
    match a
    case Absent => ""
    case Number(n) => "." + Digits(n, 10, false)
    case Star => ".*"
  }

  function SpellLength(l: Length): string {
    match l
    case Plain => ""
    case CharSize => "hh"
    case ShortSize => "h"
    case LongSize => "l"
    case LongLong => "ll"
    case LongDouble => "L"
    case SizeT => "z"
    case Ptrdiff => "t"
    case Intmax => "j"
  }

  /** What follows the flags of a directive. */
  function SpellRest(p: Piece): string
    requires p.Conversion?
  {
    SpellWidth(p.width) + (SpellPrecision(p.precision) + (SpellLength(p.length) + [p.conv]))
  }

  function Spell(p: Piece): (s: string)
    ensures |s| > 0
  {
    match p
    case Literal(c) => [c]
    case Conversion(flags, _, _, _, _) =>
      "%" + (flags + SpellRest(p))
  }

  function SpellAll(ps: seq<Piece>): string {
    if ps == [] then "" else Spell(ps[0]) + SpellAll(ps[1..])
  }

  // ---------------------------------------------------------------- the meaning

  function SetFlags(f: Flags, flags: seq<char>): Flags
    decreases |flags|
  {
    if flags == [] then f else SetFlags(SetFlag(f, flags[0]), flags[1..])
  }

  function WidthArgs(a: Amount, args: seq<Arg>): seq<Arg> { if a.Star? then Rest(args) else args }

  /** A number in the directive does not fit an int. */
  predicate TooLargeIn(p: Piece)
    requires p.Conversion?
  {
    (p.width.Number? && p.width.n > INT_MAX) || (p.precision.Number? && p.precision.n > INT_MAX)
  }

  function WithWidth(d: Directive, a: Amount, args: seq<Arg>): Directive {
    match a
    case Absent => d
    case Number(n) => d.(width := n)
    case Star => StarWidth(d, IntArg(Next(args)))
  }

  function WithPrecision(d: Directive, a: Amount, args: seq<Arg>): Directive {
    match a
    case Absent => d
    case Number(n) => d.(precision := n)
    case Star => d.(precision := Max(IntArg(Next(args)), -1))
  }

  function DirectiveOf(p: Piece, args: seq<Arg>): Directive
    requires p.Conversion?
  {
    var d := WithWidth(BARE.(flags := SetFlags(NO_FLAGS, p.flags)), p.width, args);
    WithPrecision(d, p.precision, WidthArgs(p.width, args)).(length := p.length)
  }

  /** The arguments that are left after a piece. */
  function ArgsAfter(p: Piece, args: seq<Arg>): seq<Arg> {
    if p.Literal? then args else
      var rest := WidthArgs(p.precision, WidthArgs(p.width, args));
      if Consumes(p.conv) then Rest(rest) else rest
  }

  /** The text of a piece, or None if it is too large. */
  function PieceText(lc: Locale, p: Piece, args: seq<Arg>): Option<seq<char>> {
    if p.Literal? then Some([p.c])
    else if TooLargeIn(p) then None
    else ConvText(lc, DirectiveOf(p, args), p.conv, Next(WidthArgs(p.precision, WidthArgs(p.width, args))))
  }

  /** What the pieces print. */
  function Meaning(lc: Locale, ps: seq<Piece>, args: seq<Arg>): Output {
    if ps == [] then Output([], false) else
      var text := PieceText(lc, ps[0], args);
      if text.None? then Output([], true) else Then(text.value, Meaning(lc, ps[1..], ArgsAfter(ps[0], args)))
  }

  // ---------------------------------------------------------------- reading the spelling

  lemma {:induction false} FlagsRead(flags: seq<char>, t: string, d: Directive, args: seq<Arg>)
    requires forall k :: 0 <= k < |flags| ==> IsFlag(flags[k])
    ensures FromFlags(flags + t, d, args) == FromFlags(t, d.(flags := SetFlags(d.flags, flags)), args)
    decreases |flags|
  {
    if flags == [] {
      assert flags + t == t;
    } else {
      assert (flags + t)[1..] == flags[1..] + t;
      FlagsRead(flags[1..], t, d.(flags := SetFlag(d.flags, flags[0])), args);
    }
  }

  lemma DecimalStep(n: nat)
    ensures n >= 10 ==> n / 10 < n && Digits(n, 10, false) == Digits(n / 10, 10, false) + [DigitChar(n % 10, false)]
    ensures n < 10 ==> Digits(n, 10, false) == [DigitChar(n, false)]
    ensures IsDigit(DigitChar(n % 10, false)) && DigitValue(DigitChar(n % 10, false)) == n % 10
    ensures n / 10 <= INT_MAX ==> (Overflows(n / 10, n % 10) <==> n > INT_MAX)
  {}

  /** One digit of a width is read. */
  lemma WidthDigitRead(v: nat, t: string, d: Directive, args: seq<Arg>)
    requires v < 10
    ensures FromWidth([DigitChar(v, false)] + t, d, args)
         == if Overflows(d.width, v) then TooLarge else FromWidth(t, d.(width := 10 * d.width + v), args)
  {
    var s := [DigitChar(v, false)] + t;
    assert s[0] == DigitChar(v, false) && s[1..] == t;
    assert IsDigit(s[0]) && DigitValue(s[0]) == v;
  }

  /** A spelled number is read as the width, or is too large. */
  lemma {:induction false} WidthNumberRead(n: nat, t: string, d: Directive, args: seq<Arg>)
    requires d.width == 0
    ensures FromWidth(Digits(n, 10, false) + t, d, args)
         == if n > INT_MAX then TooLarge else FromWidth(t, d.(width := n), args)
    decreases n
  {
    DecimalStep(n);
    if n < 10 {
      WidthDigitRead(n, t, d, args);
    } else {
      var ct := [DigitChar(n % 10, false)] + t;
      assert Digits(n, 10, false) + t == Digits(n / 10, 10, false) + ct;
      WidthNumberRead(n / 10, ct, d, args);
      WidthDigitRead(n % 10, t, d.(width := n / 10), args);
    }
  }

  /** One digit of a precision is read. */
  lemma PrecisionDigitRead(v: nat, t: string, d: Directive, args: seq<Arg>)
    requires v < 10
    ensures var p := if d.precision == -1 then 0 else d.precision;
            FromPrecision([DigitChar(v, false)] + t, d, args)
            == if Overflows(p, v) then TooLarge else FromPrecision(t, d.(precision := 10 * p + v), args)
  {
    var s := [DigitChar(v, false)] + t;
    assert s[0] == DigitChar(v, false) && s[1..] == t;
    assert IsDigit(s[0]) && DigitValue(s[0]) == v;
  }

  /** A spelled number is read as the precision, or is too large. */
  lemma {:induction false} PrecisionNumberRead(n: nat, t: string, d: Directive, args: seq<Arg>)
    requires d.precision == -1
    ensures FromPrecision(Digits(n, 10, false) + t, d, args)
         == if n > INT_MAX then TooLarge else FromPrecision(t, d.(precision := n), args)
    decreases n
  {
    DecimalStep(n);
    if n < 10 {
      PrecisionDigitRead(n, t, d, args);
    } else {
      var ct := [DigitChar(n % 10, false)] + t;
      assert Digits(n, 10, false) + t == Digits(n / 10, 10, false) + ct;
      PrecisionNumberRead(n / 10, ct, d, args);
      PrecisionDigitRead(n % 10, t, d.(precision := n / 10), args);
    }
  }

  /** A text that no number, star or flag starts. */
  predicate Stops(t: string) {
    t != [] && t[0] != '\0' && t[0] != '*' && !IsDigit(t[0]) && !IsFlag(t[0])
  }

  lemma LengthRead(l: Length, conv: char, t: string, d: Directive, args: seq<Arg>)
    requires IsConv(conv)
    ensures FromLength(SpellLength(l) + ([conv] + t), d, args) == Ready(d.(length := l), [conv] + t, args)
    ensures var s := SpellLength(l) + ([conv] + t); Stops(s) && s[0] != '.'
  {
    var rest := [conv] + t;
    var s := SpellLength(l) + rest;
    assert rest[0] == conv && s[|SpellLength(l)|] == conv && s[|SpellLength(l)|..] == rest;
    assert LengthAt(s) == (l, |SpellLength(l)|);
  }

  lemma PrecisionRead(a: Amount, t: string, d: Directive, args: seq<Arg>)
    requires Stops(t) && t[0] != '.' && d.precision == -1
    ensures FromDot(SpellPrecision(a) + t, d, args)
         == if a.Number? && a.n > INT_MAX then TooLarge
            else FromLength(t, WithPrecision(d, a, args), WidthArgs(a, args))
    ensures Stops(SpellPrecision(a) + t)
  {
    match a
    case Absent => assert "" + t == t;
    case Number(n) =>
      PrecisionNumberRead(n, t, d, args);
      assert ("." + Digits(n, 10, false) + t)[1..] == Digits(n, 10, false) + t;
    case Star =>
      var s := ".*" + t;
      assert s[1..] == "*" + t && s[1..][1..] == t;
  }

  lemma WidthRead(a: Amount, t: string, d: Directive, args: seq<Arg>)
    requires Stops(t) && d.width == 0 && a != Number(0)
    ensures FromFlags(SpellWidth(a) + t, d, args)
         == if a.Number? && a.n > INT_MAX then TooLarge
            else FromDot(t, WithWidth(d, a, args), WidthArgs(a, args))
  {
    match a
    case Absent => assert "" + t == t;
    case Number(n) =>
      FirstDigit(n, 10, false);
      assert FromFlags(SpellWidth(a) + t, d, args) == FromWidth(Digits(n, 10, false) + t, d, args);
      WidthNumberRead(n, t, d, args);
    case Star => assert ("*" + t)[1..] == t;
  }

  /** A spelled directive is read as it was meant. */
  lemma DirectiveRead(p: Piece, t: string, args: seq<Arg>)
    requires p.Conversion? && WellFormed(p)
    ensures FromFlags(p.flags + (SpellRest(p) + t), BARE, args)
         == if TooLargeIn(p) then TooLarge
            else Ready(DirectiveOf(p, args), [p.conv] + t, WidthArgs(p.precision, WidthArgs(p.width, args)))
  {
    var d := BARE.(flags := SetFlags(NO_FLAGS, p.flags));
    var d1, args1 := WithWidth(d, p.width, args), WidthArgs(p.width, args);
    var tail := SpellLength(p.length) + ([p.conv] + t);
    var rest := SpellPrecision(p.precision) + tail;
    LengthRead(p.length, p.conv, t, WithPrecision(d1, p.precision, args1), WidthArgs(p.precision, args1));
    PrecisionRead(p.precision, tail, d1, args1);
    WidthRead(p.width, rest, d, args);
    RestThen(p, t);
    FlagsRead(p.flags, SpellRest(p) + t, BARE, args);
  }

  lemma RestThen(p: Piece, t: string)
    requires p.Conversion?
    ensures SpellRest(p) + t
         == SpellWidth(p.width) + (SpellPrecision(p.precision) + (SpellLength(p.length) + ([p.conv] + t)))
  {}

  /** What a spelled piece in front of a format prints. */
  lemma PiecePrints(lc: Locale, p: Piece, t: string, args: seq<Arg>)
    requires WellFormed(p)
    ensures var text := PieceText(lc, p, args);
            Render(lc, Spell(p) + t, args)
            == if text.None? then Output([], true) else Then(text.value, Render(lc, t, ArgsAfter(p, args)))
  {
    if p.Literal? {
      assert (Spell(p) + t)[1..] == t;
    } else {
      SpelledDirective(p, t);
      DirectiveRead(p, t, args);
      FinishPrints(lc, p, t, args);
    }
  }

  lemma SpelledDirective(p: Piece, t: string)
    requires p.Conversion?
    ensures var s := Spell(p) + t; s[0] == '%' && s[1..] == p.flags + (SpellRest(p) + t)
  {
    assert Spell(p) + t == "%" + (p.flags + (SpellRest(p) + t));
  }

  lemma FinishPrints(lc: Locale, p: Piece, t: string, args: seq<Arg>)
    requires p.Conversion? && WellFormed(p)
    ensures var text := PieceText(lc, p, args);
            var read := if TooLargeIn(p) then TooLarge
                        else Ready(DirectiveOf(p, args), [p.conv] + t, WidthArgs(p.precision, WidthArgs(p.width, args)));
            Finish(lc, read)
            == if text.None? then Output([], true) else Then(text.value, Render(lc, t, ArgsAfter(p, args)))
  {
    var s := [p.conv] + t;
    assert s[0] == p.conv && s[1..] == t;
  }

  /** A format that ends before its last directive does prints nothing for it. */
  lemma UnfinishedPrintsNothing(lc: Locale, flags: seq<char>, args: seq<Arg>)
    requires forall k :: 0 <= k < |flags| ==> IsFlag(flags[k])
    ensures Render(lc, "%" + flags, args) == Output([], false)
  {
    FlagsRead(flags, [], BARE, args);
    assert flags + [] == flags && ("%" + flags)[1..] == flags;
  }

  /** A format prints what its pieces mean. */
  lemma {:induction false} FormatPrintsItsPieces(lc: Locale, ps: seq<Piece>, args: seq<Arg>)
    requires forall k :: 0 <= k < |ps| ==> WellFormed(ps[k])
    ensures Render(lc, SpellAll(ps), args) == Meaning(lc, ps, args)
    decreases |ps|
  {
    if ps != [] {
      PiecePrints(lc, ps[0], SpellAll(ps[1..]), args);
      FormatPrintsItsPieces(lc, ps[1..], ArgsAfter(ps[0], args));
    }
  }
}
