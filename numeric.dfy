/** Machine-level values shared by both exporters: bytes, fixed-width unsigned
    integers, IEEE-754 single-precision floats given by their bit pattern, the
    little-endian layout of integers in a byte stream, and decimal text. */
module Numeric {

  type byte = x: int | 0 <= x < 0x100
  type uint16 = x: int | 0 <= x < 0x1_0000
  type uint32 = x: int | 0 <= x < 0x1_0000_0000

  /** std::size_t on the 64-bit targets the exporter is built for. */
  const SizeModulus: int := 0x1_0000_0000_0000_0000

  datatype Option<T> = None | Some(value: T) {
    predicate IsFailure() { None? }
    function PropagateFailure<U>(): Option<U>
      requires None?
    {
      None
    }
    function Extract(): T
      requires Some?
    {
      value
    }
  }

  /** Each element of a sequence put through f, in order. */
  function Mapped<S, D>(f: S -> D, xs: seq<S>): (r: seq<D>)
    ensures |r| == |xs|
    ensures forall i | 0 <= i < |xs| :: r[i] == f(xs[i])
  {
    seq(|xs|, i requires 0 <= i < |xs| => f(xs[i]))
  }

  /** An LLUUID: its 128-bit value. The null id is 0. */
  type Uuid = x: int | 0 <= x < 0x1_0000_0000_0000_0000_0000_0000_0000_0000

  const NullUuid: Uuid := 0

  // ---------------------------------------------------------------------------
  // Floats

  /** A 32-bit float, identified by its IEEE-754 bit pattern. The arithmetic the
      exporters do on floats is not part of this model; what is modelled is the
      classification (finite, NaN, infinity), IEEE comparison and the raw bytes. */
  datatype Float = Float(bits: uint32) {
    function Exponent(): int { (bits / 0x80_0000) % 0x100 }
    function Mantissa(): int { bits % 0x80_0000 }
    predicate Negative() { bits >= 0x8000_0000 }
    predicate IsNaN() { Exponent() == 0xFF && Mantissa() != 0 }
    predicate IsInf() { Exponent() == 0xFF && Mantissa() == 0 }
    predicate IsFinite() { Exponent() != 0xFF }
    predicate IsZero() { bits % 0x8000_0000 == 0 }
  }

  type FiniteFloat = f: Float | f.IsFinite() witness Float(0)

  const PositiveZero: Float := Float(0)
  /** 10e30 (that is 1.0e31) rounded to single precision. */
  const LargePositive: Float := Float(0x72FC_6F7C)
  /** -10e30 rounded to single precision. */
  const LargeNegative: Float := Float(0xF2FC_6F7C)
  /** 0.01f, the alpha threshold of the skip-transparent test. */
  const OneHundredth: Float := Float(0x3C23_D70A)
  const PositiveOne: Float := Float(0x3F80_0000)

  /** Every float is exactly one of finite, NaN or infinite. */
  lemma ClassesPartition(f: Float)
    ensures f.IsFinite() != (f.IsNaN() || f.IsInf())
    ensures !(f.IsNaN() && f.IsInf())
  {
  }

  /** The JSON writer's clamp: NaN becomes 0, +infinity 10e30, -infinity -10e30,
      and finite values pass through. The result type says it is always finite. */
  function Sanitize(x: Float): (r: FiniteFloat)
    ensures x.IsFinite() ==> r == x
    ensures x.IsNaN() ==> r == PositiveZero
    ensures x.IsInf() && !x.Negative() ==> r == LargePositive
    ensures x.IsInf() && x.Negative() ==> r == LargeNegative
  {
    if !x.IsFinite() then
      if x.IsNaN() then PositiveZero
      else if !x.Negative() then LargePositive
      else LargeNegative
    else x
  }

  /** The values Sanitize leaves alone are exactly the finite ones, and applying
      it twice changes nothing. */
  lemma SanitizeFixedPoints(x: Float)
    ensures Sanitize(x) == x <==> x.IsFinite()
    ensures Sanitize(Sanitize(x)) == Sanitize(x)
  {
  }

  /** The position of a non-NaN float on the real line, as a signed magnitude of
      its bit pattern (the encoding is monotone in the value, and both zeros map
      to 0). */
  function OrderKey(f: Float): int
    requires !f.IsNaN()
  {
    var magnitude := f.bits % 0x8000_0000;
    if f.Negative() then -magnitude else magnitude
  }

  /** IEEE `<` on floats: false whenever either side is NaN. */
  predicate FloatLess(a: Float, b: Float) {
    !a.IsNaN() && !b.IsNaN() && OrderKey(a) < OrderKey(b)
  }

  /** IEEE `==` on floats: NaN equals nothing, +0 equals -0. */
  predicate FloatEq(a: Float, b: Float) {
    !a.IsNaN() && !b.IsNaN() && OrderKey(a) == OrderKey(b)
  }

  /** IEEE equality is bit equality except that NaN equals nothing and the two
      zeros are equal. */
  lemma FloatEqMeaning(a: Float, b: Float)
    ensures FloatEq(a, b) <==> !a.IsNaN() && !b.IsNaN() && (a == b || (a.IsZero() && b.IsZero()))
  {
    if !a.IsNaN() && !b.IsNaN() && OrderKey(a) == OrderKey(b) {
      var ma, mb := a.bits % 0x8000_0000, b.bits % 0x8000_0000;
      if a.Negative() == b.Negative() {
        assert ma == mb;
        assert a.bits == b.bits;
      } else {
        assert ma == 0 && mb == 0;
      }
    }
  }

  /** A float compares equal to itself exactly when it is not NaN. */
  lemma FloatEqReflexive(a: Float)
    ensures FloatEq(a, a) <==> !a.IsNaN()
  {
  }

  // ---------------------------------------------------------------------------
  // Little-endian integers

  function Pow256(n: nat): (p: nat)
    ensures p > 0
  {
    if n == 0 then 1 else 0x100 * Pow256(n - 1)
  }

  /** The `width` low-order bytes of `n`, least significant first. */
  function LeBytes(n: nat, width: nat): (r: seq<byte>)
    ensures |r| == width
  {
    if width == 0 then [] else [n % 0x100] + LeBytes(n / 0x100, width - 1)
  }

  /** The number a little-endian byte sequence denotes. */
  function LeValue(bs: seq<byte>): (v: nat)
    ensures v < Pow256(|bs|)
  {
    if bs == [] then 0
    else
      var rest := LeValue(bs[1..]);
      assert rest <= Pow256(|bs| - 1) - 1;
      assert 0x100 * rest <= 0x100 * Pow256(|bs| - 1) - 0x100;
      bs[0] + 0x100 * rest
  }

  /** Reading back what LeBytes wrote gives the number, when it fits. */
  lemma {:induction false} LeRoundTrip(n: nat, width: nat)
    requires n < Pow256(width)
    ensures LeValue(LeBytes(n, width)) == n
  {
    if width > 0 {
      var q := n / 0x100;
      assert n == n % 0x100 + 0x100 * q;
      assert q < Pow256(width - 1);
      LeRoundTrip(q, width - 1);
      assert LeBytes(n, width)[1..] == LeBytes(q, width - 1);
    }
  }

  /** How `unsafe_write` lays out a std::size_t: eight bytes, low byte first. */
  function SizeBytes(n: nat): (r: seq<byte>)
    ensures |r| == 8
  {
    LeBytes(n % SizeModulus, 8)
  }

  /** The four bytes of a float as they sit in memory. */
  function FloatBytes(f: Float): (r: seq<byte>)
    ensures |r| == 4
  {
    LeBytes(f.bits, 4)
  }

  function FloatOfBytes(bs: seq<byte>): Float
    requires |bs| == 4
  {
    Float(LeValue(bs))
  }

  lemma FloatBytesRoundTrip(f: Float)
    ensures FloatOfBytes(FloatBytes(f)) == f
  {
    assert Pow256(4) == 0x1_0000_0000;
    LeRoundTrip(f.bits, 4);
  }

  lemma SizeBytesRoundTrip(n: nat)
    requires n < SizeModulus
    ensures LeValue(SizeBytes(n)) == n
  {
    assert Pow256(8) == SizeModulus;
    assert n % SizeModulus == n;
    LeRoundTrip(n, 8);
    assert SizeBytes(n) == LeBytes(n, 8);
  }

  // ---------------------------------------------------------------------------
  // Byte strings

  /** A std::string holds bytes; a model string is a byte string when every
      character fits in one. */
  predicate IsByteString(s: string) {
    forall i | 0 <= i < |s| :: s[i] as int < 0x100
  }

  function StringBytes(s: string): (r: seq<byte>)
    ensures |r| == |s|
  {
    seq(|s|, i requires 0 <= i < |s| => (s[i] as int) % 0x100)
  }

  function BytesString(bs: seq<byte>): (s: string)
    ensures |s| == |bs|
  {
    seq(|bs|, i requires 0 <= i < |bs| => bs[i] as char)
  }

  lemma StringBytesRoundTrip(s: string)
    requires IsByteString(s)
    ensures BytesString(StringBytes(s)) == s
  {
    var t := BytesString(StringBytes(s));
    assert forall i | 0 <= i < |s| :: t[i] == s[i];
  }

  // ---------------------------------------------------------------------------
  // Decimal text, as `operator<<` writes an unsigned integer

  predicate IsDigit(c: char) { '0' <= c <= '9' }

  function DigitChar(d: int): (c: char)
    requires 0 <= d < 10
    ensures IsDigit(c)
  {
    (('0' as int) + d) as char
  }

  function NatToString(n: nat): (s: string)
    ensures |s| > 0
    ensures forall i | 0 <= i < |s| :: IsDigit(s[i])
  {
    if n < 10 then [DigitChar(n)] else NatToString(n / 10) + [DigitChar(n % 10)]
  }

  function ParseDecimal(s: string): nat
    requires forall i | 0 <= i < |s| :: IsDigit(s[i])
  {
    if s == [] then 0
    else
      assert IsDigit(s[|s| - 1]);
      ParseDecimal(s[..|s| - 1]) * 10 + (s[|s| - 1] as int - '0' as int)
  }

  /** Decimal text read back gives the number it was written from. */
  lemma {:induction false} ParseNatToString(n: nat)
    ensures ParseDecimal(NatToString(n)) == n
  {
    var s := NatToString(n);
    if n >= 10 {
      ParseNatToString(n / 10);
      assert s[..|s| - 1] == NatToString(n / 10);
    }
  }

  /** Distinct numbers have distinct decimal texts. */
  lemma NatToStringInjective(m: nat, n: nat)
    ensures NatToString(m) == NatToString(n) ==> m == n
  {
    ParseNatToString(m);
    ParseNatToString(n);
  }

  // ---------------------------------------------------------------------------
  // Comma-joined lists, as the JSON writers emit them

  /** Elements joined by ",", with no trailing comma. */
  function Join(xs: seq<string>): string {
    if |xs| == 0 then ""
    else if |xs| == 1 then xs[0]
    else Join(xs[..|xs| - 1]) + "," + xs[|xs| - 1]
  }

  // Sequence identities, proved apart so that they need not be rediscovered
  // inside large proof contexts.

  lemma AppendAssoc<T>(a: seq<T>, b: seq<T>, c: seq<T>)
    ensures a + b + c == a + (b + c)
  {
  }

  lemma AppendEmpty<T>(a: seq<T>, b: seq<T>)
    ensures a + [] + b == a + b
  {
  }

  lemma AppendNil<T>(a: seq<T>)
    ensures a + [] == a
  {
  }

  lemma SplitAt<T>(a: seq<T>, b: seq<T>)
    ensures (a + b)[..|a|] == a && (a + b)[|a|..] == b
  {
  }

  lemma TakeAll<T>(xs: seq<T>)
    ensures xs[..|xs|] == xs
  {
  }

  lemma TakeSnoc<T>(xs: seq<T>, i: nat)
    requires i < |xs|
    ensures xs[..i + 1] == xs[..i] + [xs[i]]
  {
  }

  /** Appending one element adds a comma and the element's text. */
  lemma JoinSnoc(xs: seq<string>, x: string)
    ensures Join(xs + [x]) == if xs == [] then x else Join(xs) + "," + x
  {
    assert (xs + [x])[..|xs|] == xs;
  }

  /** "[" then the elements joined by ",", then "]". */
  function Bracket(xs: seq<string>): string {
    "[" + Join(xs) + "]"
  }

  predicate CommaFree(s: string) {
    forall i | 0 <= i < |s| :: s[i] != ','
  }

  /** Splits text at its commas (the inverse of Join on comma-free parts). */
  function SplitCommas(s: string): (parts: seq<string>)
    ensures |parts| > 0
    decreases |s|
  {
    match LastComma(s)
    case None => [s]
    case Some(k) => SplitCommas(s[..k]) + [s[k + 1..]]
  }

  function LastComma(s: string): (r: Option<nat>)
    ensures r.Some? ==> r.value < |s| && s[r.value] == ','
    ensures r.Some? ==> forall j | r.value < j < |s| :: s[j] != ','
    ensures r.None? ==> CommaFree(s)
  {
    if s == [] then None
    else if s[|s| - 1] == ',' then Some(|s| - 1)
    else LastComma(s[..|s| - 1])
  }

  lemma LastCommaAppend(a: string, b: string)
    requires CommaFree(b)
    ensures LastComma(a + "," + b) == Some(|a|)
  {
    var s := a + "," + b;
    assert s[|a|] == ',';
    assert forall j | |a| < j < |s| :: s[j] == b[j - |a| - 1];
  }

  /** Splitting a comma-joined list of comma-free parts gives the parts back. */
  lemma {:induction false} SplitJoin(xs: seq<string>)
    requires |xs| > 0
    requires forall i | 0 <= i < |xs| :: CommaFree(xs[i])
    ensures SplitCommas(Join(xs)) == xs
  {
    if |xs| == 1 {
      assert LastComma(xs[0]) == None;
    } else {
      var init := xs[..|xs| - 1];
      var a := Join(init);
      var s := a + "," + xs[|xs| - 1];
      LastCommaAppend(a, xs[|xs| - 1]);
      assert s[..|a|] == a;
      assert s[|a| + 1..] == xs[|xs| - 1];
      SplitJoin(init);
      assert init + [xs[|xs| - 1]] == xs;
    }
  }

  /** Replaces every occurrence of `from` by `to`. */
  function ReplaceChar(s: string, from: char, to: char): (r: string)
    ensures |r| == |s|
    ensures forall i | 0 <= i < |s| :: r[i] == if s[i] == from then to else s[i]
  {
    seq(|s|, i requires 0 <= i < |s| => if s[i] == from then to else s[i])
  }

  /** After replacing `from` by a different `to`, no `from` remains; every
      `to` was a `from` or already there; other characters stay; and a
      second replacement changes nothing. */
  lemma ReplaceCharFacts(s: string, from: char, to: char)
    ensures from != to ==> from !in ReplaceChar(s, from, to)
    ensures forall i | 0 <= i < |s| :: ReplaceChar(s, from, to)[i] == to ==> s[i] == from || s[i] == to
    ensures forall i | 0 <= i < |s| :: s[i] != from ==> ReplaceChar(s, from, to)[i] == s[i]
    ensures from !in s ==> ReplaceChar(s, from, to) == s
    ensures ReplaceChar(ReplaceChar(s, from, to), from, to) == ReplaceChar(s, from, to)
  {
    var r := ReplaceChar(s, from, to);
    if from != to {
      forall i | 0 <= i < |r| ensures r[i] != from {}
    }
    if from !in s {
      forall i | 0 <= i < |s| ensures r[i] == s[i] {
        assert s[i] in s;
      }
    }
  }
}
