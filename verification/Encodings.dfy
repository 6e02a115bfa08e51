/** The unpadded encodings: base64url as JSON web keys and tokens use it, and base32 as the
    one-time password secrets use it. Both decoders are the permissive ones of Python's standard
    library. */
module Encodings {
  import opened Text

  // ---------------------------------------------------------------- positional digits

  type Byte = b: int | 0 <= b < 256

  type Bytes = seq<Byte>

  function Pow(base: nat, k: nat): nat {
    if k == 0 then 1 else Pow(base, k - 1) * base
  }

  /** The last `len` digits of a number, most significant first. */
  function ToDigits(v: nat, base: nat, len: nat): (ds: seq<nat>)
    requires base > 0
    ensures |ds| == len && forall i :: 0 <= i < len ==> ds[i] < base
    decreases len
  {
    if len == 0 then [] else ToDigits(v / base, base, len - 1) + [v % base]
  }

  function FromDigits(ds: seq<nat>, base: nat): nat {
    if ds == [] then 0 else FromDigits(ds[..|ds| - 1], base) * base + ds[|ds| - 1]
  }

  lemma MulMono(a: nat, b: nat, c: nat)
    ensures a <= b ==> a * c <= b * c
  {
  }

  lemma MulAssoc(a: nat, b: nat, c: nat)
    ensures a * (b * c) == a * b * c
  {
  }

  lemma DivLess(v: nat, base: nat, bound: nat)
    requires base > 0 && v < bound * base
    ensures v / base < bound
  {
    var q := v / base;
    assert v == q * base + v % base;
    MulMono(bound, q, base);
  }

  lemma DivMod(q: nat, r: nat, base: nat)
    requires r < base
    ensures (q * base + r) / base == q && (q * base + r) % base == r
  {
    var v := q * base + r;
    var p := v / base;
    assert v == p * base + v % base;
    MulMono(q + 1, p, base);
    MulMono(p + 1, q, base);
    assert (q + 1) * base == q * base + base && (p + 1) * base == p * base + base;
  }

  lemma PowStep(base: nat, k: nat)
    requires k > 0
    ensures Pow(base, k) == Pow(base, k - 1) * base
  {
  }

  lemma ToStep(v: nat, base: nat, len: nat)
    requires base > 0 && len > 0
    ensures ToDigits(v, base, len) == ToDigits(v / base, base, len - 1) + [v % base]
  {
  }

  lemma FromStep(ds: seq<nat>, d: nat, base: nat)
    ensures FromDigits(ds + [d], base) == FromDigits(ds, base) * base + d
  {
    assert (ds + [d])[..|ds|] == ds;
  }

  /** Writing a number that fits and reading it back. */
  lemma {:induction false} DigitsThenValue(v: nat, base: nat, len: nat)
    requires base > 0 && v < Pow(base, len)
    ensures FromDigits(ToDigits(v, base, len), base) == v
    decreases len
  {
    if len == 0 {
      assert Pow(base, 0) == 1 && FromDigits([], base) == 0;
    } else {
      PowStep(base, len);
      DivLess(v, base, Pow(base, len - 1));
      DigitsThenValue(v / base, base, len - 1);
      DigitsLast(v, base, len);
    }
  }

  lemma DigitsLast(v: nat, base: nat, len: nat)
    requires base > 0 && len > 0 && FromDigits(ToDigits(v / base, base, len - 1), base) == v / base
    ensures FromDigits(ToDigits(v, base, len), base) == v
  {
    hide FromDigits, ToDigits;
    ToStep(v, base, len);
    FromStep(ToDigits(v / base, base, len - 1), v % base, base);
  }

  /** Reading digits and writing their value again. */
  lemma {:induction false} ValueThenDigits(ds: seq<nat>, base: nat)
    requires base > 0 && forall i :: 0 <= i < |ds| ==> ds[i] < base
    ensures ToDigits(FromDigits(ds, base), base, |ds|) == ds
    ensures FromDigits(ds, base) < Pow(base, |ds|)
  {
    if ds != [] {
      var rest, last := ds[..|ds| - 1], ds[|ds| - 1];
      ValueThenDigits(rest, base);
      ValueLast(rest, last, base);
      ValueFits(rest, last, base);
      assert ds == rest + [last];
    }
  }

  lemma LessShift(v: nat, bound: nat, d: nat, base: nat)
    requires v < bound && d < base
    ensures v * base + d < bound * base
  {
    MulMono(v + 1, bound, base);
    assert (v + 1) * base == v * base + base;
  }

  lemma ValueLast(ds: seq<nat>, d: nat, base: nat)
    requires d < base && ToDigits(FromDigits(ds, base), base, |ds|) == ds
    ensures ToDigits(FromDigits(ds + [d], base), base, |ds| + 1) == ds + [d]
  {
    hide FromDigits, ToDigits;
    var w := FromDigits(ds + [d], base);
    FromStep(ds, d, base);
    DivMod(FromDigits(ds, base), d, base);
    ToStep(w, base, |ds| + 1);
  }

  lemma ValueFits(ds: seq<nat>, d: nat, base: nat)
    requires d < base && FromDigits(ds, base) < Pow(base, |ds|)
    ensures FromDigits(ds + [d], base) < Pow(base, |ds| + 1)
  {
    hide FromDigits, Pow;
    FromStep(ds, d, base);
    PowStep(base, |ds| + 1);
    LessShift(FromDigits(ds, base), Pow(base, |ds|), d, base);
  }

  function Zeros(n: nat): (ds: seq<nat>)
    ensures |ds| == n && forall i :: 0 <= i < n ==> ds[i] == 0
  {
    if n == 0 then [] else Zeros(n - 1) + [0]
  }

  /** Multiplying by a power of the base appends zeros. */
  lemma {:induction false} ShiftDigits(v: nat, base: nat, len: nat, j: nat)
    requires base > 0
    ensures ToDigits(v * Pow(base, j), base, len + j) == ToDigits(v, base, len) + Zeros(j)
    decreases j
  {
    if j == 0 {
      assert v * Pow(base, 0) == v;
    } else {
      ShiftDigits(v, base, len, j - 1);
      ShiftDigitsLast(v, base, len, j);
    }
  }

  lemma ShiftDigitsLast(v: nat, base: nat, len: nat, j: nat)
    requires base > 0 && j > 0
    requires ToDigits(v * Pow(base, j - 1), base, len + j - 1) == ToDigits(v, base, len) + Zeros(j - 1)
    ensures ToDigits(v * Pow(base, j), base, len + j) == ToDigits(v, base, len) + Zeros(j)
  {
    hide ToDigits, Pow;
    var w := v * Pow(base, j - 1);
    PowStep(base, j);
    MulAssoc(v, Pow(base, j - 1), base);
    DivMod(w, 0, base);
    ToStep(w * base, base, len + j);
    assert Zeros(j) == Zeros(j - 1) + [0];
  }

  lemma {:induction false} ShiftValue(ds: seq<nat>, base: nat, j: nat)
    ensures FromDigits(ds + Zeros(j), base) == FromDigits(ds, base) * Pow(base, j)
    decreases j
  {
    if j == 0 {
      assert ds + Zeros(0) == ds;
    } else {
      ShiftValue(ds, base, j - 1);
      ShiftValueLast(ds, base, j);
    }
  }

  lemma ShiftValueLast(ds: seq<nat>, base: nat, j: nat)
    requires j > 0 && FromDigits(ds + Zeros(j - 1), base) == FromDigits(ds, base) * Pow(base, j - 1)
    ensures FromDigits(ds + Zeros(j), base) == FromDigits(ds, base) * Pow(base, j)
  {
    hide FromDigits, Pow;
    assert ds + Zeros(j) == (ds + Zeros(j - 1)) + [0];
    FromStep(ds + Zeros(j - 1), 0, base);
    PowStep(base, j);
    MulAssoc(FromDigits(ds, base), Pow(base, j - 1), base);
  }

  // ---------------------------------------------------------------- padding

  const PAD: char := '='

  function Pads(n: nat): (s: string)
    ensures |s| == n && forall i :: 0 <= i < n ==> s[i] == PAD
  {
    if n == 0 then [] else Pads(n - 1) + [PAD]
  }

  /** Python's `rstrip("=")`. */
  function StripPads(s: string): string {
    if s != [] && s[|s| - 1] == PAD then StripPads(s[..|s| - 1]) else s
  }

  lemma {:induction false} StripPadsUndoes(core: string, n: nat)
    requires core == [] || core[|core| - 1] != PAD
    ensures StripPads(core + Pads(n)) == core
  {
    if n > 0 {
      var s := core + Pads(n);
      assert s[..|s| - 1] == core + Pads(n - 1);
      StripPadsUndoes(core, n - 1);
    } else {
      assert core + Pads(0) == core;
    }
  }

  /** What has to be added to make the length a multiple of `m`: Python's `-len % m`. */
  function Missing(len: nat, m: nat): nat
    requires m > 0
  {
    (m - len % m) % m
  }

  // ---------------------------------------------------------------- base64url

  function Char64(d: nat): char
    requires d < 64
  {
    if d < 26 then ('A' as int + d) as char
    else if d < 52 then ('a' as int + d - 26) as char
    else if d < 62 then ('0' as int + d - 52) as char
    else if d == 62 then '-' else '_'
  }

  /** The URL-safe alphabet of section 5 of RFC 4648. */
  lemma Alphabet64(d: nat)
    requires d < 64
    ensures d < 26 ==> Char64(d) == "ABCDEFGHIJKLMNOPQRSTUVWXYZ"[d]
    ensures 26 <= d < 52 ==> Char64(d) == "abcdefghijklmnopqrstuvwxyz"[d - 26]
    ensures 52 <= d ==> Char64(d) == "0123456789-_"[d - 52]
  {
  }

  /** The decoder's table, after `-` and `_` have been translated. */
  function Value64(c: char): Option<nat> {
    if 'A' <= c <= 'Z' then Some(c as int - 'A' as int)
    else if 'a' <= c <= 'z' then Some(c as int - 'a' as int + 26)
    else if '0' <= c <= '9' then Some(c as int - '0' as int + 52)
    else if c == '-' || c == '+' then Some(62)
    else if c == '_' || c == '/' then Some(63)
    else None
  }

  /** Three bytes, six bits at a time. */
  function Group64(a: Byte, b: Byte, c: Byte): (s: string)
    ensures |s| == 4
  {
    [Char64(a / 4), Char64(a % 4 * 16 + b / 16), Char64(b % 16 * 4 + c / 64), Char64(c % 64)]
  }

  /** The characters of the encoding, without its padding. */
  function Plain64(b: Bytes): string {
    if b == [] then []
    else if |b| == 1 then Group64(b[0], 0, 0)[..2]
    else if |b| == 2 then Group64(b[0], b[1], 0)[..3]
    else Group64(b[0], b[1], b[2]) + Plain64(b[3..])
  }

  function Encode64(b: Bytes): string {
    Plain64(b) + Pads((3 - |b| % 3) % 3)
  }

  function Prepend(b: Byte, r: Option<Bytes>): Option<Bytes> {
    if r.Some? then Some([b] + r.value) else None
  }

  /** The permissive reader: `quad` characters of the present group have been read and `left`
      holds the bits not yet given out. Characters outside the alphabet are skipped, and padding
      that completes a group ends the input. */
  function Read64(s: string, quad: nat, left: nat, pads: nat): Option<Bytes>
    requires quad < 4 && left < 64 && (quad == 2 ==> left < 16) && (quad == 3 ==> left < 4)
  {
    if s == [] then if quad == 0 then Some([]) else None
    else if s[0] == PAD then
      if quad >= 2 && quad + pads + 1 >= 4 then Some([])
      else Read64(s[1..], quad, left, if quad >= 2 then pads + 1 else pads)
    else
      match Value64(s[0])
      case None => Read64(s[1..], quad, left, pads)
      case Some(v) =>
        if quad == 0 then Read64(s[1..], 1, v, 0)
        else if quad == 1 then Prepend(left * 4 + v / 16, Read64(s[1..], 2, v % 16, 0))
        else if quad == 2 then Prepend(left * 16 + v / 4, Read64(s[1..], 3, v % 4, 0))
        else Prepend(left * 64 + v, Read64(s[1..], 0, 0, 0))
  }

  predicate Ascii(s: string) {
    forall i :: 0 <= i < |s| ==> s[i] < '\U{80}'
  }

  /** Padding is put back before reading. */
  function Decode64(seg: string): Option<Bytes> {
    if Ascii(seg) then Read64(seg + Pads(Missing(|seg|, 4)), 0, 0, 0) else None
  }

  lemma CharValue64(d: nat)
    requires d < 64
    ensures Value64(Char64(d)) == Some(d) && Char64(d) != PAD && Char64(d) < '\U{80}'
  {
  }

  /** The decoder reads its own alphabet, and the two characters of the other one; anything else it
      skips, wherever it stands. */
  lemma DecoderTable(c: char, d: nat, rest: string)
    requires d < 64
    ensures Value64(c) == Some(d) <==> c == Char64(d) || (d == 62 && c == '+') || (d == 63 && c == '/')
    ensures (c == PAD || Value64(c) == None) ==> Read64([c] + rest, 0, 0, 0) == Read64(rest, 0, 0, 0)
  {
    assert ([c] + rest)[1..] == rest;
  }

  /** Reading one character of the encoding's own alphabet. */
  lemma ReadChar(d: nat, rest: string, quad: nat, left: nat)
    requires d < 64 && quad < 4 && left < 64 && (quad == 2 ==> left < 16) && (quad == 3 ==> left < 4)
    ensures Read64([Char64(d)] + rest, quad, left, 0) ==
              if quad == 0 then Read64(rest, 1, d, 0)
              else if quad == 1 then Prepend(left * 4 + d / 16, Read64(rest, 2, d % 16, 0))
              else if quad == 2 then Prepend(left * 16 + d / 4, Read64(rest, 3, d % 4, 0))
              else Prepend(left * 64 + d, Read64(rest, 0, 0, 0))
  {
    hide Char64, Value64;
    CharValue64(d);
    var s := [Char64(d)] + rest;
    assert s[1..] == rest;
  }

  lemma ReadGroup(a: Byte, b: Byte, c: Byte, rest: string)
    ensures Read64(Group64(a, b, c) + rest, 0, 0, 0) == Prepend(a, Prepend(b, Prepend(c, Read64(rest, 0, 0, 0))))
  {
    hide Read64, Char64;
    var d0, d1, d2, d3 := a / 4, a % 4 * 16 + b / 16, b % 16 * 4 + c / 64, c % 64;
    var r3 := [Char64(d3)] + rest;
    var r2 := [Char64(d2)] + r3;
    var r1 := [Char64(d1)] + r2;
    assert Group64(a, b, c) + rest == [Char64(d0)] + r1;
    ReadChar(d0, r1, 0, 0);
    ReadChar(d1, r2, 1, d0);
    ReadChar(d2, r3, 2, d1 % 16);
    ReadChar(d3, rest, 3, d2 % 4);
  }

  lemma ReadOneByte(a: Byte)
    ensures Read64(Group64(a, 0, 0)[..2] + Pads(2), 0, 0, 0) == Some([a])
  {
    hide Read64, Char64;
    var d0, d1 := a / 4, a % 4 * 16;
    var tail := [Char64(d1)] + Pads(2);
    assert Group64(a, 0, 0)[..2] + Pads(2) == [Char64(d0)] + tail;
    ReadChar(d0, tail, 0, 0);
    ReadChar(d1, Pads(2), 1, d0);
    ReadPads(2, d1 % 16);
    assert [a] + [] == [a];
  }

  lemma ReadTwoBytes(a: Byte, b: Byte)
    ensures Read64(Group64(a, b, 0)[..3] + Pads(1), 0, 0, 0) == Some([a, b])
  {
    hide Read64, Char64;
    var d0, d1, d2 := a / 4, a % 4 * 16 + b / 16, b % 16 * 4;
    var r2 := [Char64(d2)] + Pads(1);
    var r1 := [Char64(d1)] + r2;
    assert Group64(a, b, 0)[..3] + Pads(1) == [Char64(d0)] + r1;
    ReadChar(d0, r1, 0, 0);
    ReadChar(d1, r2, 1, d0);
    ReadChar(d2, Pads(1), 2, d1 % 16);
    ReadPads(3, d2 % 4);
    assert [b] + [] == [b] && [a] + [b] == [a, b];
  }

  lemma ReadPads(quad: nat, left: nat)
    requires quad == 2 || quad == 3
    requires left < 64 && (quad == 2 ==> left < 16) && (quad == 3 ==> left < 4)
    ensures Read64(Pads(4 - quad), quad, left, 0) == Some([])
  {
    var s := Pads(4 - quad);
    if quad == 2 {
      assert s[0] == PAD && s[1..][0] == PAD;
      assert Read64(s, 2, left, 0) == Read64(s[1..], 2, left, 1);
    }
  }

  predicate Visible(c: char) {
    c != PAD && c < '\U{80}'
  }

  lemma GroupShape(a: Byte, b: Byte, c: Byte)
    ensures forall i :: 0 <= i < 4 ==> Visible(Group64(a, b, c)[i])
  {
    hide Char64;
    CharValue64(a / 4);
    CharValue64(a % 4 * 16 + b / 16);
    CharValue64(b % 16 * 4 + c / 64);
    CharValue64(c % 64);
  }

  lemma {:induction false} PlainShape(b: Bytes)
    ensures forall i :: 0 <= i < |Plain64(b)| ==> Visible(Plain64(b)[i])
    ensures |Plain64(b)| % 4 == if |b| % 3 == 0 then 0 else |b| % 3 + 1
  {
    hide Group64, Visible;
    if |b| == 1 {
      GroupShape(b[0], 0, 0);
    } else if |b| == 2 {
      GroupShape(b[0], b[1], 0);
    } else if |b| >= 3 {
      GroupShape(b[0], b[1], b[2]);
      PlainShape(b[3..]);
    }
  }

  lemma {:induction false} ReadPlain(b: Bytes)
    ensures Read64(Plain64(b) + Pads((3 - |b| % 3) % 3), 0, 0, 0) == Some(b)
  {
    hide Read64, Group64;
    var pads := Pads((3 - |b| % 3) % 3);
    if b == [] {
      EmptyRead();
    } else if |b| == 1 {
      ReadOneByte(b[0]);
      assert b == [b[0]];
    } else if |b| == 2 {
      ReadTwoBytes(b[0], b[1]);
      assert b == [b[0], b[1]];
    } else {
      ReadPlain(b[3..]);
      assert Plain64(b) + pads == Group64(b[0], b[1], b[2]) + (Plain64(b[3..]) + pads);
      ReadGroup(b[0], b[1], b[2], Plain64(b[3..]) + pads);
      assert b == [b[0]] + ([b[1]] + ([b[2]] + b[3..]));
    }
  }

  lemma EmptyRead()
    ensures Read64([] + Pads(0), 0, 0, 0) == Some([])
  {
    var none: string := [];
    assert none + Pads(0) == none;
  }

  /** Encoding, stripping the padding, restoring it and decoding gives the bytes back, whatever
      their number. */
  lemma UnpaddedRoundTrip64(b: Bytes)
    ensures Decode64(StripPads(Encode64(b))) == Some(b)
  {
    hide Read64, Plain64;
    PlainShape(b);
    StripPadsUndoes(Plain64(b), (3 - |b| % 3) % 3);
    assert Missing(|Plain64(b)|, 4) == (3 - |b| % 3) % 3;
    ReadPlain(b);
  }

  // ---------------------------------------------------------------- JWK integers

  function BitLength(n: nat): nat {
    if n == 0 then 0 else 1 + BitLength(n / 2)
  }

  function Octets(n: nat): nat {
    (BitLength(n) + 7) / 8
  }

  /** `int.to_bytes(len, "big")`. */
  function ToBytes(n: nat, len: nat): Bytes {
    ToDigits(n, 256, len)
  }

  function FromBytes(b: Bytes): nat {
    FromDigits(b, 256)
  }

  function UintToText(n: nat): string {
    StripPads(Encode64(ToBytes(n, Octets(n))))
  }

  function TextToUint(s: string): Option<nat> {
    match Decode64(s)
    case None => None
    case Some(b) => Some(FromBytes(b))
  }

  lemma HalfEight(n: nat)
    ensures n / 2 / 2 / 2 / 2 / 2 / 2 / 2 / 2 == n / 256
  {
  }

  /** A byte more for every factor of 256. */
  lemma OctetsStep(n: nat)
    requires n > 0
    ensures Octets(n) == 1 + Octets(n / 256)
  {
    HalfEight(n);
    var a := n / 2;
    var b := a / 2;
    var c := b / 2;
    var d := c / 2;
    var e := d / 2;
    var f := e / 2;
    var g := f / 2;
    assert g / 2 == n / 256;
    BitLengthSteps(n, a, b, c, d);
    BitLengthSteps(d, e, f, g, g / 2);
  }

  lemma BitLengthSteps(n: nat, a: nat, b: nat, c: nat, d: nat)
    requires a == n / 2 && b == a / 2 && c == b / 2 && d == c / 2
    ensures n >= 16 ==> BitLength(n) == 4 + BitLength(d)
    ensures n < 16 ==> BitLength(n) <= 4
    ensures n > 0 ==> BitLength(n) >= 1
  {
    assert BitLength(n) == if n == 0 then 0 else 1 + BitLength(a);
    assert BitLength(a) == if a == 0 then 0 else 1 + BitLength(b);
    assert BitLength(b) == if b == 0 then 0 else 1 + BitLength(c);
    assert BitLength(c) == if c == 0 then 0 else 1 + BitLength(d);
    assert BitLength(0) == 0;
  }

  /** The octets are enough for the number, and the first of them is not zero. */
  lemma {:induction false} OctetsMinimal(n: nat)
    ensures n < Pow(256, Octets(n))
    ensures n > 0 ==> Octets(n) > 0 && ToBytes(n, Octets(n))[0] != 0
  {
    if n > 0 {
      OctetsStep(n);
      OctetsMinimal(n / 256);
      var k := Octets(n / 256);
      MulMono(n / 256 + 1, Pow(256, k), 256);
      if n < 256 { assert ToDigits(n / 256, 256, 0) == []; }
    }
  }

  /** A positive integer is written with the fewest octets and read back as itself; so no two
      integers are written alike. */
  lemma UintRoundTrip(n: nat, m: nat)
    ensures TextToUint(UintToText(n)) == Some(n)
    ensures n > 0 ==>
            Decode64(UintToText(n)).Some? && Decode64(UintToText(n)).value != []
                  && Decode64(UintToText(n)).value[0] != 0
    ensures UintToText(n) == UintToText(m) ==> n == m
  {
    hide Encode64, Decode64, StripPads, Octets, ToDigits, FromDigits;
    UintRead(n);
    UintRead(m);
    OctetsMinimal(n);
  }

  lemma UintRead(n: nat)
    ensures Decode64(UintToText(n)) == Some(ToBytes(n, Octets(n)))
    ensures FromBytes(ToBytes(n, Octets(n))) == n
  {
    hide Encode64, Decode64, StripPads, Octets;
    UnpaddedRoundTrip64(ToBytes(n, Octets(n)));
    OctetsMinimal(n);
    DigitsThenValue(n, 256, Octets(n));
  }

  lemma NoOctets()
    ensures Octets(0) == 0 && ToBytes(0, Octets(0)) == []
  {
    assert BitLength(0) == 0;
  }

  lemma EmptyText()
    ensures Encode64([]) == [] && StripPads([]) == []
  {
    assert Plain64([]) == [] && Pads(0) == [];
  }

  /** Zero is written as nothing at all, where section 2 of RFC 7518 asks for one zero octet,
      which is written `AA`. */
  lemma ZeroIsEmpty()
    ensures UintToText(0) == []
    ensures StripPads(Encode64([0])) == ['A', 'A']
  {
    hide Octets, ToDigits, StripPads, Pads;
    NoOctets();
    EmptyText();
    assert Plain64([0]) == Group64(0, 0, 0)[..2] == [Char64(0), Char64(0)] == ['A', 'A'];
    StripPadsUndoes(['A', 'A'], 2);
  }

  /** The example of appendix C of RFC 7515. */
  lemma PublishedEncoding()
    ensures StripPads(Encode64([3, 236, 255, 224, 193])) == "A-z_4ME"
  {
    hide StripPads, Group64;
    var b: Bytes := [3, 236, 255, 224, 193];
    assert b[3..] == [224, 193];
    PublishedGroups();
    assert Plain64(b) == "A-z_" + "4ME" == "A-z_4ME";
    StripPadsUndoes("A-z_4ME", 1);
  }

  lemma PublishedGroups()
    ensures Group64(3, 236, 255) == "A-z_" && Group64(224, 193, 0)[..3] == "4ME"
  {
  }

  /** The exponent of most RSA keys. */
  lemma CommonExponent()
    ensures UintToText(65537) == "AQAB"
  {
    hide StripPads, Group64, Octets, ToDigits, BitLength;
    ExponentOctets();
    ExponentBytes();
    ExponentGroup();
    var b: Bytes := [1, 0, 1];
    assert b[3..] == [];
    var none: Bytes := [];
    assert Plain64(none) == "";
    assert Plain64(b) == Group64(1, 0, 1) + "" == "AQAB";
    StripPadsUndoes("AQAB", 0);
  }

  lemma ExponentOctets()
    ensures Octets(65537) == 3
  {
    hide Octets, BitLength;
    OctetsStep(65537);
    OctetsStep(256);
    OctetsStep(1);
    NoOctets();
  }

  lemma ExponentBytes()
    ensures ToBytes(65537, 3) == [1, 0, 1]
  {
    ToStep(65537, 256, 3);
    ToStep(256, 256, 2);
    ToStep(1, 256, 1);
  }

  lemma ExponentGroup()
    ensures Group64(1, 0, 1) == "AQAB"
  {
  }
}
