/** Stringification of the values a log statement streams (the
    `StringifyBuiltInType` overloads of dlog.h), including the formatting
    state a pointer leaves behind in the statement's stream. */
module Stringify {
  import opened Wrappers
  import opened Text

  /** `sizeof(const void*)` on a 64-bit target: the field width a pointer is
      written with. */
  const PointerSize: nat := 8

  /** A value streamed into a log statement, classified by the overload
      that renders it. */
  datatype Value =
    | Bool(b: bool)                   // bool
    | Char(c: char)                   // char, signed char, unsigned char
    | Integer(value: int, bits: nat)  // short .. unsigned long long, with the width of its type
    | CString(chars: string)          // const char* and string literals: the pointed-to characters
    | CharArray(chars: string)        // char* and writable char buffers
    | StdString(chars: string)        // std::string
    | StringView(chars: string)       // std::string_view
    | Pointer(address: nat)           // any other pointer
    | Custom(handle: nat)             // an application type, rendered by its hook

  /** The base field of the stream's flags: decimal until a pointer is
      written, hexadecimal (upper case) from then on. */
  datatype NumBase = Decimal | Hexadecimal

  /** The pieces of rendering that the model leaves opaque: the digits
      `operator<<(const void*)` writes for an address under the flags set
      before it, and the application's custom stringifier. */
  datatype Hooks = Hooks(pointerDigits: nat -> string, custom: nat -> string)

  /** The text one value adds to the stream and the base the stream is in
      afterwards. */
  datatype Rendered = Rendered(text: string, base: NumBase)

  function Pow2(bits: nat): (r: nat)
    ensures r >= 1
  {
    if bits == 0 then 1 else 2 * Pow2(bits - 1)
  }

  /** An integer of a `bits`-wide type, signed or unsigned. */
  predicate FitsIn(value: int, bits: nat) {
    bits >= 1 && -(Pow2(bits - 1) as int) <= value < Pow2(bits)
  }

  /** What the stream writes for an integer: decimal with a sign, or, in
      hexadecimal mode, the upper-case digits of its unsigned reading
      (two's complement at its type's width). */
  function IntegerText(value: int, bits: nat, base: NumBase): (r: string)
    ensures base == Decimal ==> ParseDecimal(r) == Some(value)
    ensures base == Hexadecimal ==> AllDigits(r, 16) && DigitsToNat(r, 16) == value % Pow2(bits)
  {
    match base
    case Decimal => IntToDecimal(value)
    case Hexadecimal =>
      DigitsRoundTrip(value % Pow2(bits), 16);
      NatToDigits(value % Pow2(bits), 16)
  }

  /** The overload a value reaches, with a `char*` rendered as the C string
      it points to, like a `const char*`. */
  function Render(v: Value, base: NumBase, hooks: Hooks): (r: Rendered)
    ensures r.base == (if v.Pointer? then Hexadecimal else base)
  {
    match v
    case Bool(b) => Rendered(if b then "true" else "false", base)
    case Char(c) => Rendered([c], base)
    case Integer(x, bits) => Rendered(IntegerText(x, bits, base), base)
    case CString(s) => Rendered(CStr(s), base)
    case CharArray(s) => Rendered(CStr(s), base)
    case StdString(s) => Rendered(CStr(s), base)
    case StringView(s) => Rendered(s, base)
    case Pointer(a) => Rendered("0x" + hooks.pointerDigits(a), Hexadecimal)
    case Custom(h) => Rendered(hooks.custom(h), base)
  }

  /** The overload resolution as dlog.h is written: a `char*` is an exact
      match for the generic template, which beats the `const TCHARTYPE*`
      overload (that one needs a qualification conversion), so it takes the
      pointer branch: "0x", then the C string right-aligned in a field of
      `PointerSize` characters filled with '0', and the stream stays in
      hexadecimal mode. Every other value renders as in `Render`. */
  function RenderAsWritten(v: Value, base: NumBase, hooks: Hooks): (r: Rendered)
    ensures !v.CharArray? ==> r == Render(v, base, hooks)
  {
    match v
    case CharArray(s) => Rendered("0x" + PadLeft(CStr(s), '0', PointerSize), Hexadecimal)
    case _ => Render(v, base, hooks)
  }

  /** As written, a `char*` never renders as the characters it points to. */
  lemma CharArrayAsWrittenIsNotVerbatim(s: string, base: NumBase, hooks: Hooks)
    ensures RenderAsWritten(CharArray(s), base, hooks).text != Render(CharArray(s), base, hooks).text
    ensures RenderAsWritten(CharArray(s), base, hooks).text[..2] == "0x"
  {
    var written := RenderAsWritten(CharArray(s), base, hooks).text;
    assert |written| >= 2 + |CStr(s)|;
  }

  /** The concrete case: a buffer holding "hi" is logged as "0x000000hi". */
  lemma CharArrayHiAsWritten(hooks: Hooks)
    ensures RenderAsWritten(CharArray("hi"), Decimal, hooks).text == "0x000000hi"
    ensures Render(CharArray("hi"), Decimal, hooks).text == "hi"
  {
    assert CStr("hi") == "hi" by { CStrOfPlainText("hi"); }
    assert PadLeft("hi", '0', PointerSize) == "000000hi";
  }

  /** Booleans render as their literal names, characters as themselves and
      every kind of string verbatim (the C-string kinds up to a NUL, which
      they cannot hold). None of these touches the stream's base. */
  lemma RenderVerbatim(v: Value, base: NumBase, hooks: Hooks)
    requires v.Bool? || v.Char? || v.CString? || v.CharArray? || v.StdString? || v.StringView?
    requires (v.CString? || v.CharArray? || v.StdString?) ==> '\0' !in v.chars
    ensures Render(v, base, hooks).base == base
    ensures v.Bool? ==> Render(v, base, hooks).text == (if v.b then "true" else "false")
    ensures v.Char? ==> Render(v, base, hooks).text == [v.c]
    ensures !v.Bool? && !v.Char? ==> Render(v, base, hooks).text == v.chars
  {
    if v.CString? || v.CharArray? || v.StdString? {
      CStrOfPlainText(v.chars);
    }
  }

  /** A `std::string` is written through `c_str()`, so it stops at its first
      NUL, while a `std::string_view` is written whole. */
  lemma StdStringStopsAtNul(s: string, base: NumBase, hooks: Hooks)
    requires '\0' in s
    ensures |Render(StdString(s), base, hooks).text| < |s|
    ensures Render(StringView(s), base, hooks).text == s
  {
  }

  /** In hexadecimal mode an integer of its type's width reads back as its
      unsigned reading: itself when non-negative, plus 2^bits when negative. */
  lemma HexIntegerReadsBack(x: int, bits: nat, hooks: Hooks)
    requires FitsIn(x, bits)
    ensures DigitsToNat(Render(Integer(x, bits), Hexadecimal, hooks).text, 16)
            == if x < 0 then x + Pow2(bits) else x
  {
    var m := Pow2(bits);
    assert m == 2 * Pow2(bits - 1);
    UnsignedReading(x, m);
  }

  /** Reducing modulo m maps [-m, m) onto [0, m) by adding m to negatives. */
  lemma UnsignedReading(x: int, m: int)
    requires m > 0 && -m <= x < m
    ensures x % m == if x < 0 then x + m else x
  {
    var q, r := x / m, x % m;
    assert x == m * q + r && 0 <= r < m;
    if q >= 0 {
      assert m * q >= 0;
    } else {
      assert m * q <= -m;
    }
  }

  /** A pointer is written with a "0x" prefix and leaves the stream in
      hexadecimal mode. */
  lemma PointerPrefix(a: nat, base: NumBase, hooks: Hooks)
    ensures Render(Pointer(a), base, hooks).text[..2] == "0x"
    ensures Render(Pointer(a), base, hooks).base == Hexadecimal
  {
  }

  predicate HasPointer(vs: seq<Value>) {
    exists i :: 0 <= i < |vs| && vs[i].Pointer?
  }

  /** The text a sequence of values adds to a stream that starts in `base`,
      and the base the stream ends in: hexadecimal exactly when it started so
      or one of the values is a pointer. */
  function RenderAll(vs: seq<Value>, base: NumBase, hooks: Hooks): (r: Rendered)
    ensures r.base == (if base == Hexadecimal || HasPointer(vs) then Hexadecimal else base)
  {
    if vs == [] then Rendered([], base)
    else
      var front := vs[..|vs| - 1];
      var prefix := RenderAll(front, base, hooks);
      var last := Render(vs[|vs| - 1], prefix.base, hooks);
      assert HasPointer(vs) <==> HasPointer(front) || vs[|vs| - 1].Pointer? by {
        if HasPointer(front) {
          var i :| 0 <= i < |front| && front[i].Pointer?;
          assert vs[i].Pointer?;
        }
        if HasPointer(vs) && !vs[|vs| - 1].Pointer? {
          var i :| 0 <= i < |vs| && vs[i].Pointer?;
          assert front[i].Pointer?;
        }
      }
      Rendered(prefix.text + last.text, last.base)
  }

  /** Rendering a chain of values is rendering its two halves one after the
      other, the second starting in the base the first left behind. */
  lemma {:induction false} RenderAllSplit(xs: seq<Value>, ys: seq<Value>, base: NumBase, hooks: Hooks)
    ensures RenderAll(xs + ys, base, hooks)
            == var first := RenderAll(xs, base, hooks);
               var second := RenderAll(ys, first.base, hooks);
               Rendered(first.text + second.text, second.base)
    decreases |ys|
  {
    if ys == [] {
      assert xs + ys == xs;
    } else {
      var ys' := ys[..|ys| - 1];
      assert (xs + ys)[..|xs + ys| - 1] == xs + ys';
      assert (xs + ys)[|xs + ys| - 1] == ys[|ys| - 1];
      RenderAllSplit(xs, ys', base, hooks);
    }
  }
}
