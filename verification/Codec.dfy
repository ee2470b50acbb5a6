/** Register words and the integers and engineering values they stand for
    (src/pyems/drivers/modbus_device.py, src/pyems/sim/device.py). The high word comes first,
    as the MODBUS Application Protocol Specification V1.1b3, section 4.2, orders bytes. */
module Codec {
  import opened Num

  const WORD := 0x1_0000
  const DOUBLE := 0x1_0000_0000

  type Word = w: int | 0 <= w < WORD

  datatype RegType = U16 | I16 | U32 | I32 {
    predicate Signed() {
      I16? || I32?
    }

    function Count(): nat {
      if U32? || I32? then 2 else 1
    }

    function Modulus(): int {
      if Count() == 2 then DOUBLE else WORD
    }
  }

  predicate InRange(v: int, t: RegType) {
    if t.Signed() then -(t.Modulus() / 2) <= v < t.Modulus() / 2 else 0 <= v < t.Modulus()
  }

  /** The value of t's range that is v modulo the register's size. */
  function Wrapped(v: int, t: RegType): int {
    var m := t.Modulus();
    if t.Signed() && v % m >= m / 2 then v % m - m else v % m
  }

  function Decoded(words: seq<Word>, t: RegType): int
    requires |words| == t.Count()
  {
    var value := if t.Count() == 2 then words[0] * WORD + words[1] else words[0];
    if t.Signed() && value >= t.Modulus() / 2 then value - t.Modulus() else value
  }

  function Encoded(v: int, t: RegType): (words: seq<Word>)
    ensures |words| == t.Count()
  {
    if t.Count() == 2 then
      var u := v % DOUBLE;
      [u / WORD % WORD, u % WORD]
    else [v % WORD]
  }

  lemma HighLow(u: int)
    requires 0 <= u < DOUBLE
    ensures 0 <= u / WORD < WORD && u / WORD % WORD == u / WORD && u / WORD * WORD + u % WORD == u
  {}

  lemma WordFits(v: int)
    ensures v % WORD == v <==> 0 <= v < WORD
    ensures v % WORD - WORD == v <==> -WORD <= v < 0
  {}

  lemma DoubleFits(v: int)
    ensures v % DOUBLE == v <==> 0 <= v < DOUBLE
    ensures v % DOUBLE - DOUBLE == v <==> -DOUBLE <= v < 0
  {}

  /** An integer is its own wrapping exactly if it is in the type's range. */
  lemma WrappedInRange(v: int, t: RegType)
    ensures Wrapped(v, t) == v <==> InRange(v, t)
  {
    if t.Count() == 2 { DoubleFits(v); } else { WordFits(v); }
  }

  /** What a register gives back of any integer written to it: the integer itself exactly if it
      is in the type's range. */
  lemma DecodedEncoded(v: int, t: RegType)
    ensures Decoded(Encoded(v, t), t) == Wrapped(v, t)
    ensures Wrapped(v, t) == v <==> InRange(v, t)
  {
    HighLow(v % DOUBLE);
    WrappedInRange(v, t);
    hide InRange;
  }

  /** Every register content is the encoding of what it decodes to. */
  lemma EncodedDecoded(words: seq<Word>, t: RegType)
    requires |words| == t.Count()
    ensures Encoded(Decoded(words, t), t) == words && InRange(Decoded(words, t), t)
  {
    if t.Count() == 2 {
      var u := words[0] * WORD + words[1];
      assert u / WORD == words[0] && u % WORD == words[1];
      assert (u - DOUBLE) % DOUBLE == u;
    }
  }

  /** The words as one number, the first the most significant. */
  function BigEndian(words: seq<Word>): int {
    if words == [] then 0 else BigEndian(words[..|words| - 1]) * WORD + words[|words| - 1]
  }

  /** What each register type can hold. */
  lemma RangesAre(v: int)
    ensures InRange(v, U16) <==> 0 <= v < 65536
    ensures InRange(v, I16) <==> -32768 <= v < 32768
    ensures InRange(v, U32) <==> 0 <= v < 4294967296
    ensures InRange(v, I32) <==> -2147483648 <= v < 2147483648
  {}

  /** A value in range is sent in one word or, of a 32-bit type, in two, high word first, and a negative
      one as its two's complement. */
  lemma TwosComplement(v: int, t: RegType)
    requires InRange(v, t)
    ensures |Encoded(v, t)| == if t.U32? || t.I32? then 2 else 1
    ensures BigEndian(Encoded(v, t)) == if v >= 0 then v else v + if t.I16? then 65536 else 4294967296
  {
    var words := Encoded(v, t);
    if t.Count() == 2 {
      HighLow(v % DOUBLE);
      TwoWords(words[0], words[1]);
      assert words == [words[0], words[1]];
    } else {
      assert words[..0] == [];
    }
  }

  lemma TwoWords(high: Word, low: Word)
    ensures BigEndian([high, low]) == high * WORD + low
  {
    assert [high, low][..1] == [high] && [high][..0] == [];
    assert BigEndian([high]) == high;
  }

  // --- scaling -------------------------------------------------------------------------------

  /** Python's int(): towards zero. */
  function Truncated(x: real): int {
    if x < 0.0 then -((-x).Floor) else x.Floor
  }

  /** Python's round(): to the nearest, halves to even. */
  function Rounded(x: real): int {
    var f := x.Floor;
    var rest := x - f as real;
    if rest < 0.5 || (rest == 0.5 && f % 2 == 0) then f else f + 1
  }

  lemma TruncatedTowardsZero(x: real)
    ensures Abs(Truncated(x) as real) <= Abs(x) && Abs(x - Truncated(x) as real) < 1.0
    ensures x >= 0.0 ==> Truncated(x) >= 0
    ensures x <= 0.0 ==> Truncated(x) <= 0
  {}

  lemma RoundedNearest(x: real)
    ensures Abs(x - Rounded(x) as real) <= 0.5
    ensures Abs(x - Rounded(x) as real) == 0.5 ==> Rounded(x) % 2 == 0
  {}

  lemma AbsProduct(a: real, b: real, p: real)
    requires p == a * b
    ensures Abs(p) == Abs(b) * Abs(a)
  {
    Signs(Abs(a), Abs(b));
  }

  lemma Signs(a: real, b: real)
    requires a >= 0.0 && b >= 0.0
    ensures a * b >= 0.0 && (-a) * b == -(a * b) && a * (-b) == -(a * b) && (-a) * (-b) == a * b
  {}

  lemma ScaledUp(a: real, b: real, scale: real, scaledA: real, scaledB: real)
    requires scale > 0.0 && scaledA == scale * a && scaledB == scale * b
    ensures a <= b ==> scaledA <= scaledB
    ensures a < b ==> scaledA < scaledB
  {
    if a < b { assert scale * (b - a) > 0.0; }
  }

  lemma Magnitudes(n: real, q: real, scale: real, back: real, x: real)
    requires scale != 0.0 && back == n * scale && x == q * scale
    ensures Abs(n) <= Abs(q) ==> Abs(back) <= Abs(x)
  {
    AbsProduct(n, scale, back);
    AbsProduct(q, scale, x);
    ScaledUp(Abs(n), Abs(q), Abs(scale), Abs(back), Abs(x));
    hide Abs;
  }

  lemma Nearness(delta: real, scale: real, gap: real)
    requires scale != 0.0 && gap == delta * scale
    ensures Abs(delta) < 1.0 ==> Abs(gap) < Abs(scale)
    ensures Abs(delta) <= 0.5 ==> Abs(gap) <= Abs(scale) / 2.0
  {
    AbsProduct(delta, scale, gap);
    ScaledUp(Abs(delta), 1.0, Abs(scale), Abs(gap), Abs(scale));
    ScaledUp(Abs(delta), 0.5, Abs(scale), Abs(gap), Abs(scale) / 2.0);
    hide Abs;
  }

  lemma Quotient(v: real, scale: real)
    requires scale != 0.0
    ensures v / scale * scale == v
  {}

  lemma Difference(q: real, n: real, scale: real)
    ensures q * scale - n * scale == (q - n) * scale
  {}

  /** The whole number of units sent for a setpoint. */
  function Units(v: real, scale: real): int
    requires scale != 0.0
  {
    Truncated(v / scale)
  }

  /** A commanded setpoint as it arrives: the whole number of units next to it towards zero. */
  function Arrives(v: real, scale: real): real
    requires scale != 0.0
  {
    Units(v, scale) as real * scale
  }

  /** Never larger in magnitude, and less than one unit away. */
  lemma ArrivesJustBelow(v: real, scale: real)
    requires scale != 0.0
    ensures Abs(Arrives(v, scale)) <= Abs(v) && Abs(v - Arrives(v, scale)) < Abs(scale)
  {
    hide Truncated, Abs;
    var q, n := v / scale, Units(v, scale) as real;
    TruncatedTowardsZero(q);
    Quotient(v, scale);
    Difference(q, n, scale);
    hide Arrives;
    Magnitudes(n, q, scale, Arrives(v, scale), v);
    Nearness(q - n, scale, v - Arrives(v, scale));
  }

  /** A measured field as it is served. */
  function Served(x: real, scale: real): real
    requires scale != 0.0
  {
    Rounded(x / scale) as real * scale
  }

  lemma ServedWithinHalf(x: real, scale: real)
    requires scale != 0.0
    ensures Abs(x - Served(x, scale)) <= Abs(scale) / 2.0
  {
    hide Rounded, Abs;
    var q, n := x / scale, Rounded(x / scale) as real;
    RoundedNearest(q);
    Quotient(x, scale);
    Difference(q, n, scale);
    Nearness(q - n, scale, x - Served(x, scale));
  }
}
