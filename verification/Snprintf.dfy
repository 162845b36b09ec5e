/** The formatter, writing into a buffer of limited size. */
module Snprintf {
  import opened FormatSpec
  import opened Arith

  const MAX_CONVERT_LENGTH := 43

  /** The number of characters of a text that fit a buffer, which also holds a NUL. */
  function Fits(n: nat, size: nat): nat {
    if size == 0 then 0 else if n < size then n else size - 1
  }

  /** Where the output goes: at most `size` characters of buf, none if buf is null. */
  class Printer {
    const buf: array?<char>
    const size: nat
    var len: nat
    ghost var text: seq<char>          // everything printed so far
    ghost const before: seq<char>      // what the buffer held

    ghost predicate Valid()
      reads this, buf
    {
      && len == |text|
      && (buf == null ==> size == 0)
      && (buf != null ==>
            && size <= buf.Length == |before|
            && (forall k :: 0 <= k < Fits(len, size) ==> buf[k] == text[k])
            && (forall k :: Fits(len, size) <= k < buf.Length ==> buf[k] == before[k]))
    }

    constructor (buf: array?<char>, size: nat)
      requires buf != null ==> size <= buf.Length
      ensures Valid() && text == [] && this.buf == buf && this.size == (if buf == null then 0 else size)
      ensures buf != null ==> before == buf[..]
    {
      this.buf, this.size := buf, if buf == null then 0 else size;
      len, text := 0, [];
      before := if buf == null then [] else buf[..];
    }

    method OutChar(ch: char)
      requires Valid()
      modifies this, buf
      ensures Valid() && text == old(text) + [ch]
    {
      if len + 1 < size { buf[len] := ch; }
      len := len + 1;
      text := text + [ch];
    }

    /** A loop that prints one character n times. */
    method OutPad(ch: char, n: int)
      requires Valid()
      modifies this, buf
      ensures Valid() && text == old(text) + Pad(ch, n)
    {
      var k := n;
      while k > 0
        invariant Valid() && text + Pad(ch, k) == old(text) + Pad(ch, n)
      {
        ghost var t := text;
        OutChar(ch);
        k := k - 1;
        assert t + Pad(ch, k + 1) == t + [ch] + Pad(ch, k);
      }
    }

    method OutSeq(s: seq<char>)
      requires Valid()
      modifies this, buf
      ensures Valid() && text == old(text) + s
    {
      for i := 0 to |s|
        invariant Valid() && text == old(text) + s[..i]
      {
        OutChar(s[i]);
        assert s[..i + 1] == s[..i] + [s[i]];
      }
      assert s[..|s|] == s;
    }

    // -------------------------------------------------------------- strings

    /** Prints a string, aligned in a field. */
    method FmtStr(chars: seq<char>, width: int, precision: int, minus: bool)
      requires Valid() && precision >= -1
      modifies this, buf
      ensures Valid() && text == old(text) + StrText(chars, width, precision, minus)
    {
      var strln := ShownLength(chars, precision);
      var padlen := width - strln;
      if padlen < 0 { padlen := 0; }
      if minus { padlen := -padlen; }
      OutPad(' ', padlen);
      OutShown(chars, precision);
      OutPad(' ', -padlen);
      Aligned(old(text), chars, width, precision, minus, padlen);
    }

    /** Prints the characters of a string up to a NUL or the precision. */
    method OutShown(chars: seq<char>, precision: int)
      requires Valid() && precision >= -1
      modifies this, buf
      ensures Valid() && text == old(text) + Shown(chars, precision)
    {
      var i, left := 0, precision;
      assert chars[0..] == chars;
      while i < |chars| && chars[i] != '\0' && (precision == -1 || left > 0)
        invariant Valid() && 0 <= i <= |chars| && (if precision == -1 then left == -1 else left >= 0)
        invariant text + Shown(chars[i..], left) == old(text) + Shown(chars, precision)
      {
        ghost var t := text;
        OutChar(chars[i]);
        assert chars[i..][1..] == chars[i + 1..];
        assert t + Shown(chars[i..], left) == t + [chars[i]] + Shown(chars[i + 1..], if left == -1 then -1 else left - 1);
        i := i + 1;
        if precision != -1 { left := left - 1; }
      }
    }

    // -------------------------------------------------------------- integers

    /** Prints the first n characters of a buffer of digits in reverse, with separators
        between groups of three if there are any. */
    method OutDigits(iconvert: array<char>, n: nat, separators: nat, separator: seq<char>, ghost digits: seq<char>)
      requires Valid() && iconvert != buf && n <= iconvert.Length && Reversed(iconvert, n, digits)
      modifies this, buf
      ensures Valid() && text == old(text) + Body(digits, separators, separator)
    {
      var pos := n;
      ghost var todo := digits;
      while pos > 0
        invariant Valid() && 0 <= pos <= n && Reversed(iconvert, n, digits) && todo == digits[n - pos..]
        invariant text + Body(todo, separators, separator) == old(text) + Body(digits, separators, separator)
      {
        pos := pos - 1;
        assert todo[0] == iconvert[pos] && |todo| == pos + 1;
        BodyStep(text, todo, separators, separator);
        assert text + [todo[0]] + [] == text + [todo[0]];
        OutChar(iconvert[pos]);
        if separators > 0 && pos > 0 && pos % 3 == 0 { OutSeq(separator); }
        todo := todo[1..];
      }
      assert text + [] == text;
    }

    /** Prints the parts of an integer. */
    method OutLayout(spadlen: int, sign: char, hexprefix: char, zpadlen: int,
                     iconvert: array<char>, pos: nat, separators: nat, separator: seq<char>, ghost digits: seq<char>)
      requires Valid() && iconvert != buf && pos <= iconvert.Length && Reversed(iconvert, pos, digits)
      modifies this, buf
      ensures Valid()
      ensures text == old(text) + Layout(spadlen, Unless0(sign), PrefixOf(hexprefix), zpadlen, Body(digits, separators, separator))
    {
      OutPad(' ', spadlen);
      OutSign(sign, hexprefix);
      OutPad('0', zpadlen);
      OutDigits(iconvert, pos, separators, separator, digits);
      OutPad(' ', -spadlen);
      Joined(old(text), spadlen, Unless0(sign), PrefixOf(hexprefix), zpadlen, Body(digits, separators, separator));
    }

    method OutSign(sign: char, hexprefix: char)
      requires Valid()
      modifies this, buf
      ensures Valid() && text == old(text) + Unless0(sign) + PrefixOf(hexprefix)
    {
      if sign != '\0' { OutChar(sign); }
      if hexprefix != '\0' {
        OutChar('0');
        OutChar(hexprefix);
      }
    }

    /** Prints an integer. */
    method FmtInt(value: int, st: Style, d: Directive, separator: seq<char>)
      requires Valid() && st.base in {8, 10, 16} && Magnitude(value, st) < UINTMAX
      modifies this, buf
      ensures Valid() && text == old(text) + IntText(value, st, d, separator)
    {
      var iconvert := new char[MAX_CONVERT_LENGTH];
      var pos := Convert(Magnitude(value, st), iconvert, st.base, st.up);
      var separators := if d.flags.quote then GetNumSep(pos, separator) else 0;
      var sign, hexprefix, spadlen, zpadlen := Arrange(value, pos, separators, st, d);
      OutLayout(spadlen, sign, hexprefix, zpadlen, iconvert, pos, separators, separator, DigitsOf(value, st));
    }

    // -------------------------------------------------------------- conversions

    /** Prints one conversion, unless it is too large. */
    method OutConv(lc: Locale, d: Directive, c: char, a: Arg) returns (ok: bool)
      requires Valid() && d.precision >= -1
      modifies this, buf
      ensures Valid() && ok == ConvText(lc, d, c, a).Some?
      ensures text == if ok then old(text) + ConvText(lc, d, c, a).value else old(text)
    {
      ok := true;
      if TakesInt(c) {
        IntValueFits(a, c, d.length);
        FmtInt(IntValue(a, c, d.length), StyleOf(c), d, lc.separator);
      } else if TakesFloat(c) {
        var r := lc.float(a, c, d);
        ok := r.Some?;
        if ok { OutSeq(r.value); }
      } else if c == 'c' {
        OutChar((AsInt(a) % 256) as char);
      } else if c == 's' {
        FmtStr(AsChars(a), d.width, d.precision, d.flags.minus);
      } else if c == 'p' {
        if Wrap(AsInt(a), 64) == 0 {
          FmtStr("(nil)", d.width, -1, d.flags.minus);
        } else {
          Widths();
          FmtInt(Wrap(AsInt(a), 64), StyleOf(c), d.(flags := d.flags.(num := true)), lc.separator);
        }
      } else if c == '%' {
        OutChar(c);
      }
    }

    /** Ends the output with a NUL. */
    method Terminate()
      requires Valid()
      modifies buf
      ensures buf != null && size > 0 ==> Holds(buf[..], text, size, before)
      ensures buf != null && size == 0 ==> buf[..] == before
    {
      if len < size {
        buf[len] := '\0';
      } else if size > 0 {
        buf[size - 1] := '\0';
      }
    }
  }

  /** The buffer holds the start of the text that fits it, and a NUL; the rest of it is as
      it was. */
  ghost predicate Holds(buf: seq<char>, text: seq<char>, size: nat, before: seq<char>)
    requires 0 < size <= |buf|
  {
    var n := Fits(|text|, size);
    && |before| == |buf|
    && buf[..n] == text[..n] && buf[n] == '\0' && buf[n + 1..] == before[n + 1..]
  }

  lemma Widths()
    ensures Pow2(7) == 0x80 && Pow2(8) == 0x100 && Pow2(15) == 0x8000 && Pow2(16) == 0x1_0000
    ensures Pow2(31) == 0x8000_0000 && Pow2(32) == 0x1_0000_0000 && Pow2(63) == 0x8000_0000_0000_0000 && Pow2(64) == UINTMAX
  {
    assert Pow2(8) == 0x100;
    assert Pow2(16) == 0x1_0000;
    assert Pow2(24) == 0x100_0000;
    assert Pow2(32) == 0x1_0000_0000;
    assert Pow2(40) == 0x100_0000_0000;
    assert Pow2(48) == 0x1_0000_0000_0000;
    assert Pow2(56) == 0x100_0000_0000_0000;
  }

  lemma WrapFits(v: int, bits: nat)
    requires bits > 0
    ensures Wrap(v, bits) < Pow2(bits) && 0 - Pow2(bits) < WrapSigned(v, bits) < Pow2(bits)
  {
    assert Pow2(bits) == 2 * Pow2(bits - 1);
  }

  lemma BitsFit(l: Length)
    ensures Pow2(Bits(l)) <= UINTMAX
  {
    Widths();
  }

  lemma IntValueFits(a: Arg, c: char, l: Length)
    ensures Magnitude(IntValue(a, c, l), StyleOf(c)) < UINTMAX
  {
    WrapFits(AsInt(a), Bits(l));
    BitsFit(l);
  }

  /** Works out the sign, the prefix and the padding of an integer. */
  method Arrange(value: int, pos: nat, separators: nat, st: Style, d: Directive)
    returns (sign: char, hexprefix: char, spadlen: int, zpadlen: int)
    requires st.base in {8, 10, 16}
    ensures Unless0(sign) == Sign(value, st, d.flags) && PrefixOf(hexprefix) == Prefix(value, st, d.flags)
    ensures (spadlen, zpadlen) == Padding(value, pos, separators, st, d)
  {
    var f := d.flags;
    sign, hexprefix := '\0', '\0';
    if !st.unsigned {
      sign := if value < 0 then '-' else if f.plus then '+' else if f.space then ' ' else '\0';
    }
    var precision := d.precision;
    if f.num && Magnitude(value, st) != 0 {
      if st.base == 8 {
        if precision <= pos { precision := pos + 1; }
      } else if st.base == 16 {
        hexprefix := if st.up then 'X' else 'x';
      }
    }
    zpadlen := precision - pos - separators;
    spadlen := d.width - separators - Max(precision, pos)
               - (if sign != '\0' then 1 else 0) - (if hexprefix != '\0' then 2 else 0);
    if zpadlen < 0 { zpadlen := 0; }
    if spadlen < 0 { spadlen := 0; }
    if f.minus {
      spadlen := -spadlen;
    } else if f.zero && d.precision == -1 {
      zpadlen := zpadlen + spadlen;
      spadlen := 0;
    }
  }

  /** The padding on either side, one of which is empty, aligns a string. */
  lemma Aligned(t: seq<char>, chars: seq<char>, width: int, precision: int, minus: bool, padlen: int)
    requires var n := Max(width - |Shown(chars, precision)|, 0); padlen == if minus then -n else n
    ensures t + StrText(chars, width, precision, minus) == t + Pad(' ', padlen) + Shown(chars, precision) + Pad(' ', -padlen)
  {
    var shown := Shown(chars, precision);
    var n := width - |shown|;
    if n <= 0 {
      assert Pad(' ', padlen) == [] && Pad(' ', -padlen) == [] && Pad(' ', n) == [];
    } else if minus {
      assert Pad(' ', padlen) == [];
    } else {
      assert Pad(' ', -padlen) == [];
    }
  }

  lemma BodyStep(t: seq<char>, digits: seq<char>, separators: nat, separator: seq<char>)
    requires digits != []
    ensures var sep := if separators > 0 && |digits| > 1 && (|digits| - 1) % 3 == 0 then separator else [];
            t + Body(digits, separators, separator) == t + [digits[0]] + sep + Body(digits[1..], separators, separator)
  {
    if separators > 0 {
      var sep := if |digits| > 1 && (|digits| - 1) % 3 == 0 then separator else [];
      Assoc(t, [digits[0]], sep, Grouped(digits[1..], separator));
    } else {
      assert digits == [digits[0]] + digits[1..];
      Assoc(t, [digits[0]], [], digits[1..]);
      assert [digits[0]] + [] == [digits[0]];
    }
  }

  lemma Assoc(a: seq<char>, b: seq<char>, c: seq<char>, d: seq<char>)
    ensures a + (b + c + d) == a + b + c + d
  {}

  ghost function Unless0(c: char): seq<char> { if c == '\0' then [] else [c] }

  ghost function PrefixOf(c: char): seq<char> { if c == '\0' then [] else ['0', c] }

  lemma Joined(t: seq<char>, spaces: int, sign: seq<char>, prefix: seq<char>, zeros: int, body: seq<char>)
    ensures t + Layout(spaces, sign, prefix, zeros, body)
         == t + Pad(' ', spaces) + sign + prefix + Pad('0', zeros) + body + Pad(' ', -spaces)
  {}

  function GetNumSep(digits: nat, separator: seq<char>): nat
    requires digits > 0
  {
    (digits - if digits % 3 == 0 then 1 else 0) / 3 * |separator|
  }

  /** The first n characters of the buffer are the digits in reverse. */
  ghost predicate Reversed(iconvert: array<char>, n: nat, digits: seq<char>)
    requires n <= iconvert.Length
    reads iconvert
  {
    n == |digits| && forall k :: 0 <= k < n ==> iconvert[n - 1 - k] == digits[k]
  }

  /** The digits of a value, and none of 0. */
  ghost function Left(v: nat, base: nat, caps: bool): seq<char>
    requires 2 <= base <= 16
  {
    if v == 0 then [] else Digits(v, base, caps)
  }

  /** The digits taken apart: those still to come, and those in the buffer. */
  ghost predicate Converting(all: seq<char>, left: seq<char>, iconvert: array<char>, pos: nat)
    requires pos <= iconvert.Length
    reads iconvert
  {
    |all| == |left| + pos && left <= all && forall k :: 0 <= k < pos ==> iconvert[k] == all[|all| - 1 - k]
  }

  lemma SmallQuotient(v: nat, base: nat)
    requires base > 0
    ensures if v < base then v / base == 0 && v % base == v else v / base > 0
  {}

  lemma LastDigit(v: nat, base: nat, caps: bool)
    requires 2 <= base <= 16
    ensures Digits(v, base, caps) == Left(v / base, base, caps) + [DigitChar(v % base, caps)]
  {
    SmallQuotient(v, base);
  }

  /** Puts the digits of a value into a buffer, the last one first. */
  method Convert(value0: nat, iconvert: array<char>, base: nat, caps: bool) returns (pos: nat)
    requires value0 < UINTMAX && base in {8, 10, 16} && iconvert.Length == MAX_CONVERT_LENGTH
    modifies iconvert
    ensures pos <= iconvert.Length && Reversed(iconvert, pos, Digits(value0, base, caps))
  {
    ghost var all := Digits(value0, base, caps);
    FewDigits(value0, base, caps);
    var value := PutDigit(value0, iconvert, 0, base, caps, all);
    pos := 1;
    while value != 0 && pos < iconvert.Length
      invariant 0 < pos <= iconvert.Length
      invariant Converting(all, Left(value, base, caps), iconvert, pos)
      decreases iconvert.Length - pos
    {
      value := PutDigit(value, iconvert, pos, base, caps, all);
      pos := pos + 1;
    }
  }

  /** Moves one digit to the buffer. */
  method PutDigit(value: nat, iconvert: array<char>, pos: nat, base: nat, caps: bool, ghost all: seq<char>) returns (rest: nat)
    requires pos < iconvert.Length && 2 <= base <= 16
    requires Converting(all, Digits(value, base, caps), iconvert, pos)
    modifies iconvert
    ensures Converting(all, Left(rest, base, caps), iconvert, pos + 1)
  {
    LastDigit(value, base, caps);
    iconvert[pos] := DigitOf(value % base, caps);
    rest := value / base;
  }

  /** The table of digits. */
  function DigitOf(d: nat, caps: bool): (c: char)
    requires d < 16
    ensures c == DigitChar(d, caps)
  {
    var digits := if caps then "0123456789ABCDEF" else "0123456789abcdef";
    DigitTable(d, caps);
    digits[d]
  }

  lemma DigitTable(d: nat, caps: bool)
    requires d < 16
    ensures (if caps then "0123456789ABCDEF" else "0123456789abcdef")[d] == DigitChar(d, caps)
  {
    var s := if caps then "0123456789ABCDEF" else "0123456789abcdef";
    assert s[0] == '0' && s[1] == '1' && s[2] == '2' && s[3] == '3' && s[4] == '4' && s[5] == '5' && s[6] == '6' && s[7] == '7';
  }

  function Power(base: nat, k: nat): nat { if k == 0 then 1 else base * Power(base, k - 1) }

  /** A number below base^k has at most k digits. */
  lemma {:induction false} DigitCount(v: nat, base: nat, caps: bool, k: nat)
    requires 2 <= base <= 16 && v < base * Power(base, k)
    ensures |Digits(v, base, caps)| <= k + 1
    decreases k
  {
    if v >= base && k > 0 {
      DivBounds(v, base);
      CancelLt(base, v / base, Power(base, k));
      DigitCount(v / base, base, caps, k - 1);
    }
  }

  lemma {:induction false} PowerGrows(a: nat, b: nat, k: nat)
    requires a <= b
    ensures Power(a, k) <= Power(b, k)
  {
    if k > 0 {
      PowerGrows(a, b, k - 1);
      MulLe(Power(a, k - 1), Power(b, k - 1), a);
      MulLe(a, b, Power(b, k - 1));
    }
  }

  /** The buffer of `convert` is large enough. */
  lemma FewDigits(v: nat, base: nat, caps: bool)
    requires v < UINTMAX && 8 <= base <= 16
    ensures |Digits(v, base, caps)| <= 22 < MAX_CONVERT_LENGTH
  {
    PowerGrows(8, base, 22);
    assert Power(8, 4) == 0x1000;
    assert Power(8, 8) == 0x100_0000;
    assert Power(8, 12) == 0x10_0000_0000;
    assert Power(8, 16) == 0x1_0000_0000_0000;
    assert Power(8, 20) == 0x1000_0000_0000_0000;
    assert Power(8, 22) == 0x4_0000_0000_0000_0000;
    assert Power(base, 22) == base * Power(base, 21);
    DigitCount(v, base, caps, 21);
  }

  method ShownLength(chars: seq<char>, precision: int) returns (n: nat)
    requires precision >= -1
    ensures n == |Shown(chars, precision)|
  {
    n := 0;
    assert chars[0..] == chars;
    while n < |chars| && chars[n] != '\0' && (precision == -1 || n < precision)
      invariant n <= |chars| && (precision == -1 || n <= precision)
      invariant n + |Shown(chars[n..], if precision == -1 then -1 else precision - n)| == |Shown(chars, precision)|
    {
      assert chars[n..][1..] == chars[n + 1..];
      n := n + 1;
    }
  }

  // ---------------------------------------------------------------- the format

  /** The states of the formatter while it reads a format. */
  datatype State = InText | InFlags | InWidth | InDot | InPrecision | InLength | InConv

  /** The directive that the formatter is in the middle of, with s still to read. */
  ghost function Reading(s: string, state: State, d: Directive, args: seq<Arg>): (p: Parsed)
    requires !state.InText?
    ensures Within(p, |s|)
  {
    match state
    case InFlags => FromFlags(s, d, args)
    case InWidth => FromWidth(s, d, args)
    case InDot => FromDot(s, d, args)
    case InPrecision => FromPrecision(s, d, args)
    case InLength => FromLength(s, d, args)
    case InConv => FromConv(s, d, args)
  }

  /** What remains to be printed. */
  ghost function Remaining(lc: Locale, s: string, state: State, d: Directive, args: seq<Arg>): Output {
    if state.InText? then Render(lc, s, args) else Finish(lc, Reading(s, state, d, args))
  }

  /** How often the state can still change without reading a character. */
  function Rank(s: State): nat {
    match s
    case InFlags => 6
    case InWidth => 5
    case InDot => 4
    case InPrecision => 3
    case InLength => 2
    case InConv => 1
    case InText => 0
  }

  /** One step of a state that prints nothing.  `overflow` is set when a number is too large. */
  method ReadStep(fmt: string, i0: nat, state0: State, d0: Directive, args0: seq<Arg>)
    returns (i: nat, state: State, d: Directive, args: seq<Arg>, overflow: bool)
    requires i0 < |fmt| && fmt[i0] != '\0' && !state0.InText? && !state0.InConv? && d0.precision >= -1
    ensures i0 <= i <= |fmt| && (!overflow && i == i0 ==> Rank(state) < Rank(state0)) && d.precision >= -1 && !state.InText?
    ensures Reading(fmt[i0..], state0, d0, args0) == if overflow then TooLarge else Reading(fmt[i..], state, d, args)
  {
    i, state, d, args, overflow := i0, state0, d0, args0, false;
    var ch := fmt[i];
    ghost var s := fmt[i..];
    assert s[0] == ch && s[1..] == fmt[i + 1..];
    match state0
    case InFlags =>
      if IsFlag(ch) {
        d := d.(flags := SetFlag(d.flags, ch));
        i := i + 1;
      } else {
        state := InWidth;
      }
    case InWidth =>
      if IsDigit(ch) {
        if Overflows(d.width, DigitValue(ch)) { overflow := true; return; }
        d := d.(width := 10 * d.width + DigitValue(ch));
        i := i + 1;
      } else if ch == '*' {
        d, args := StarWidth(d, IntArg(Next(args))), Rest(args);
        i, state := i + 1, InDot;
      } else {
        state := InDot;
      }
    case InDot =>
      if ch == '.' {
        i, state := i + 1, InPrecision;
      } else {
        state := InLength;
      }
    case InPrecision =>
      if d.precision == -1 { d := d.(precision := 0); }
      if IsDigit(ch) {
        if Overflows(d.precision, DigitValue(ch)) { overflow := true; return; }
        d := d.(precision := 10 * d.precision + DigitValue(ch));
        i := i + 1;
      } else if ch == '*' {
        d, args := d.(precision := Max(IntArg(Next(args)), -1)), Rest(args);
        i, state := i + 1, InLength;
      } else {
        state := InLength;
      }
    case InLength =>
      var (length, n) := LengthAt(fmt[i..]);
      assert s[n..] == fmt[i + n..];
      d := d.(length := length);
      i, state := i + n, InConv;
  }

  /** One step of the formatter in any state.  `goal` is what the whole call prints. */
  method Step(p: Printer, lc: Locale, fmt: string, i0: nat, state0: State, d0: Directive, args0: seq<Arg>, ghost goal: Output)
    returns (i: nat, state: State, d: Directive, args: seq<Arg>, overflow: bool)
    requires p.Valid() && i0 < |fmt| && fmt[i0] != '\0' && d0.precision >= -1 && (state0.InText? ==> d0 == BARE)
    requires goal == Then(p.text, Remaining(lc, fmt[i0..], state0, d0, args0))
    modifies p, p.buf
    ensures p.Valid() && i0 <= i <= |fmt| && d.precision >= -1 && (state.InText? ==> d == BARE)
    ensures !overflow && i == i0 ==> Rank(state) < Rank(state0)
    ensures goal == if overflow then Output(p.text, true) else Then(p.text, Remaining(lc, fmt[i..], state, d, args))
  {
    i, state, d, args, overflow := i0, state0, d0, args0, false;
    var ch := fmt[i];
    ghost var was, s := p.text, fmt[i..];
    assert s[0] == ch && s[1..] == fmt[i + 1..];
    if state.InText? {
      if ch == '%' {
        state := InFlags;
      } else {
        p.OutChar(ch);
        Shift(was, [ch], Remaining(lc, fmt[i + 1..], state, d, args));
      }
      i := i + 1;
    } else if state.InConv? {
      var ok := p.OutConv(lc, d, ch, Next(args));
      if Consumes(ch) { args := Rest(args); }
      if ok { Shift(was, ConvText(lc, d, ch, Next(args0)).value, Render(lc, fmt[i + 1..], args)); }
      overflow := !ok;
      i, state, d := i + 1, InText, BARE;
    } else {
      i, state, d, args, overflow := ReadStep(fmt, i, state, d, args);
    }
  }

  lemma Shift(s: seq<char>, t: seq<char>, o: Output)
    ensures Then(s, Then(t, o)) == Then(s + t, o)
  {
    assert s + (t + o.text) == s + t + o.text;
  }

  method Vsnprintf(buf: array?<char>, size: nat, lc: Locale, fmt: string, args0: seq<Arg>) returns (ret: int)
    requires buf != null ==> size <= buf.Length
    modifies buf
    ensures var out := Render(lc, fmt, args0);
            ret == if out.overflow || |out.text| >= INT_MAX then -1 else |out.text|
    ensures buf != null && size > 0 ==> Holds(buf[..], Render(lc, fmt, args0).text, size, old(buf[..]))
    ensures buf != null && size == 0 ==> buf[..] == old(buf[..])
  {
    var p := new Printer(buf, size);
    var i, state, d, args, overflow := 0, InText, BARE, args0, false;
    ghost var goal := Render(lc, fmt, args0);
    assert Then([], goal) == goal && fmt[0..] == fmt;
    while i < |fmt| && fmt[i] != '\0'
      invariant p.Valid() && fresh(p) && p.buf == buf
      invariant 0 <= i <= |fmt| && d.precision >= -1 && (state.InText? ==> d == BARE) && !overflow
      invariant goal == Then(p.text, Remaining(lc, fmt[i..], state, d, args))
      decreases |fmt| - i, Rank(state)
    {
      i, state, d, args, overflow := Step(p, lc, fmt, i, state, d, args, goal);
      if overflow { break; }
    }
    assert goal == Output(p.text, overflow);
    p.Terminate();
    ret := if overflow || p.len >= INT_MAX then -1 else p.len;
  }

  /** A buffer with room for one more character than the text holds all of it. */
  lemma HoldsAll(buf: seq<char>, text: seq<char>)
    requires |buf| == |text| + 1 && exists before :: Holds(buf, text, |buf|, before)
    ensures buf == text + ['\0']
  {
    assert buf == buf[..|text|] + [buf[|text|]];
  }

  /** Prints to a buffer of its own.  `allocates` says whether memory can be had. */
  method Vasprintf(lc: Locale, fmt: string, args: seq<Arg>, allocates: bool) returns (buf: array?<char>, ret: int)
    ensures var out := Render(lc, fmt, args);
            if !allocates || out.overflow || |out.text| >= INT_MAX then ret == -1 && buf == null
            else && ret == |out.text| && buf != null && fresh(buf)
                 && buf[..] == out.text + ['\0']
  {
    buf := null;
    ret := Vsnprintf(null, 0, lc, fmt, args);
    if ret < 0 || !allocates { return null, -1; }
    var size := ret + 1;
    buf := new char[size];
    ret := Vsnprintf(buf, size, lc, fmt, args);
    HoldsAll(buf[..], Render(lc, fmt, args).text);
  }
}
