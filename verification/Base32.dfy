/** One-time password secrets: bytes in base32 without padding, read back in either case. */
module Base32 {
  import opened Text
  import opened Encodings

  function Char32(d: nat): char
    requires d < 32
  {
    if d < 26 then ('A' as int + d) as char else ('2' as int + d - 26) as char
  }

  function Value32(c: char): Option<nat> {
    if 'A' <= c <= 'Z' then Some(c as int - 'A' as int)
    else if '2' <= c <= '7' then Some(c as int - '2' as int + 26)
    else None
  }

  /** The alphabet of section 6 of RFC 4648. */
  lemma Alphabet32(d: nat)
    requires d < 32
    ensures Char32(d) == "ABCDEFGHIJKLMNOPQRSTUVWXYZ234567"[d]
  {
  }

  predicate Fives(ds: seq<nat>) {
    forall i :: 0 <= i < |ds| ==> ds[i] < 32
  }

  function Chars32(ds: seq<nat>): (s: string)
    requires Fives(ds)
    ensures |s| == |ds| && forall i :: 0 <= i < |s| ==> s[i] == Char32(ds[i])
  {
    if ds == [] then [] else [Char32(ds[0])] + Chars32(ds[1..])
  }

  /** Five bytes as eight digits of five bits. */
  function GroupDigits(b: Bytes): (ds: seq<nat>)
    ensures |ds| == 8 && Fives(ds)
  {
    ToDigits(FromDigits(b, 256), 32, 8)
  }

  /** How many digits a last group of `m` bytes needs. */
  function Kept(m: nat): nat
    requires m < 5
  {
    if m == 0 then 0 else if m == 1 then 2 else if m == 2 then 4 else if m == 3 then 5 else 7
  }

  function Digits32(b: Bytes): (ds: seq<nat>)
    ensures Fives(ds)
  {
    if b == [] then []
    else if |b| < 5 then GroupDigits(b + Zeros(5 - |b|))[..Kept(|b|)]
    else GroupDigits(b[..5]) + Digits32(b[5..])
  }

  function Encode32(b: Bytes): string {
    Chars32(Digits32(b)) + Pads(if |b| % 5 == 0 then 0 else 8 - Kept(|b| % 5))
  }

  function Values32(s: string): Option<seq<nat>> {
    if s == [] then Some([])
    else
      match (Value32(s[0]), Values32(s[1..]))
      case (Some(v), Some(vs)) => Some([v] + vs)
      case _ => None
  }

  /** Whole groups give five bytes each; a last short group is filled up with zero digits and
      gives the bytes it was made from. */
  function Bytes32(ds: seq<nat>): Bytes {
    if ds == [] then []
    else if |ds| < 8 then ToDigits(FromDigits(ds + Zeros(8 - |ds|), 32), 256, 5)[..(43 - 5 * (8 - |ds|)) / 8]
    else ToDigits(FromDigits(ds[..8], 32), 256, 5) + Bytes32(ds[8..])
  }

  function Decode32(s: string): Option<Bytes> {
    var core := StripPads(s);
    var values := Values32(core);
    if |s| % 8 != 0 || values.None? then None
    else if |s| - |core| !in {0, 1, 3, 4, 6} then None
    else Some(Bytes32(values.value))
  }

  /** What `random_secret` makes of its random bytes. */
  function SecretText(b: Bytes): string {
    StripPads(Encode32(b))
  }

  /** The key a one-time password is computed with. */
  function KeyOf(secret: string): Option<Bytes> {
    Decode32(Upper(secret) + Pads(Missing(|secret|, 8)))
  }

  // ---------------------------------------------------------------- one group

  lemma Powers()
    ensures Pow(256, 5) == Pow(32, 8)
    ensures Pow(256, 4) == 4 * Pow(32, 6) && Pow(256, 3) == 16 * Pow(32, 4)
    ensures Pow(256, 2) == 2 * Pow(32, 3) && Pow(256, 1) == 8 * Pow(32, 1)
  {
    assert Pow(256, 1) == 256 * Pow(256, 0) && Pow(256, 2) == 65536 && Pow(256, 3) == 16777216;
    assert Pow(256, 4) == 4294967296 && Pow(256, 5) == 1099511627776;
    assert Pow(32, 1) == 32 * Pow(32, 0) && Pow(32, 2) == 1024 && Pow(32, 3) == 32768 && Pow(32, 4) == 1048576;
    assert Pow(32, 5) == 33554432 && Pow(32, 6) == 1073741824 && Pow(32, 7) == 34359738368
          && Pow(32, 8) == 1099511627776;
  }

  lemma GroupBack(b: Bytes)
    requires |b| == 5
    ensures ToDigits(FromDigits(GroupDigits(b), 32), 256, 5) == b
  {
    hide ToDigits, FromDigits, Pow;
    Powers();
    ValueThenDigits(b, 256);
    DigitsThenValue(FromDigits(b, 256), 32, 8);
  }

  lemma DroppedDigits(b: Bytes, j: nat, k: nat, c: nat)
    requires |b| + j == 5 && k <= 8 && Pow(256, j) == c * Pow(32, 8 - k)
    ensures var ds := GroupDigits(b + Zeros(j)); ds == ds[..k] + Zeros(8 - k)
  {
    hide ToDigits, FromDigits, Pow;
    var v := FromDigits(b, 256);
    ShiftValue(b, 256, j);
    MulAssoc(v, c, Pow(32, 8 - k));
    ShiftDigits(v * c, 32, k, 8 - k);
    var ds := GroupDigits(b + Zeros(j));
    assert ds[..k] == ToDigits(v * c, 32, k);
  }

  /** The digits that a short group drops are zero. */
  lemma DroppedAreZero(b: Bytes)
    requires 0 < |b| < 5
    ensures var ds := GroupDigits(b + Zeros(5 - |b|)); ds == ds[..Kept(|b|)] + Zeros(8 - Kept(|b|))
  {
    hide GroupDigits, Pow;
    Powers();
    DroppedDigits(b, 5 - |b|, Kept(|b|), if |b| == 1 then 4 else if |b| == 2 then 16 else if |b| == 3 then 2 else 8);
  }

  lemma Leftover(m: nat)
    requires 0 < m < 5
    ensures (43 - 5 * (8 - Kept(m))) / 8 == m
  {
  }

  lemma ShortDigits(b: Bytes)
    requires 0 < |b| < 5
    ensures 0 < Kept(|b|) < 8 && Digits32(b) == GroupDigits(b + Zeros(5 - |b|))[..Kept(|b|)]
  {
    hide GroupDigits;
  }

  lemma ShortGroupBack(b: Bytes)
    requires 0 < |b| < 5
    ensures Bytes32(Digits32(b)) == b
  {
    hide ToDigits, FromDigits, GroupDigits, Kept, Digits32, Bytes32;
    DroppedAreZero(b);
    Leftover(|b|);
    var full := b + Zeros(5 - |b|);
    GroupBack(full);
    ShortDigits(b);
    var ds := Digits32(b);
    ShortBytes(ds);
    assert ds + Zeros(8 - |ds|) == GroupDigits(full);
    assert full[..|b|] == b;
  }

  lemma ShortBytes(ds: seq<nat>)
    requires 0 < |ds| < 8
    ensures Bytes32(ds) == ToDigits(FromDigits(ds + Zeros(8 - |ds|), 32), 256, 5)[..(43 - 5 * (8 - |ds|)) / 8]
  {
    hide ToDigits, FromDigits;
  }

  // ---------------------------------------------------------------- the whole

  lemma {:induction false} DigitsLength(b: Bytes)
    ensures |Digits32(b)| % 8 == Kept(|b| % 5)
  {
    hide GroupDigits, Digits32, Kept;
    if b == [] {
      NoDigits();
    } else if |b| < 5 {
      ShortDigits(b);
    } else {
      DigitsLength(b[5..]);
      LongDigits(b);
    }
  }

  lemma NoDigits()
    ensures Digits32([]) == [] && Kept(0) == 0
  {
  }

  lemma LongDigits(b: Bytes)
    requires |b| >= 5
    ensures |Digits32(b)| == 8 + |Digits32(b[5..])|
  {
    hide GroupDigits;
  }

  lemma WholeGroup(b: Bytes)
    requires |b| >= 5 && Bytes32(Digits32(b[5..])) == b[5..]
    ensures Bytes32(Digits32(b)) == b
  {
    hide ToDigits, FromDigits, GroupDigits;
    GroupBack(b[..5]);
    var ds := Digits32(b);
    assert ds[..8] == GroupDigits(b[..5]) && ds[8..] == Digits32(b[5..]);
    assert b == b[..5] + b[5..];
  }

  lemma {:induction false} BytesBack(b: Bytes)
    ensures Bytes32(Digits32(b)) == b
  {
    hide ToDigits, FromDigits, GroupDigits;
    if b == [] {
    } else if |b| < 5 {
      ShortGroupBack(b);
    } else {
      BytesBack(b[5..]);
      WholeGroup(b);
    }
  }

  lemma CharValue32(d: nat)
    requires d < 32
    ensures Value32(Char32(d)) == Some(d) && Char32(d) != PAD && UpperChar(Char32(d)) == Char32(d)
  {
  }

  /** The decoder takes its alphabet and nothing else: a secret with any other character, up to
      case, is no secret. */
  lemma {:induction false} OnlyTheAlphabet(s: string, d: nat, c: char)
    requires d < 32
    ensures Value32(c) == Some(d) <==> c == Char32(d)
    ensures Values32(s).Some? <==> forall i :: 0 <= i < |s| ==> 'A' <= s[i] <= 'Z' || '2' <= s[i] <= '7'
  {
    if s != [] { OnlyTheAlphabet(s[1..], d, c); }
  }

  lemma {:induction false} ValuesOfChars(ds: seq<nat>)
    requires Fives(ds)
    ensures Values32(Chars32(ds)) == Some(ds)
  {
    hide Char32, Value32;
    if ds != [] {
      CharValue32(ds[0]);
      ValuesOfChars(ds[1..]);
      assert Chars32(ds)[1..] == Chars32(ds[1..]);
      assert ds == [ds[0]] + ds[1..];
    }
  }

  lemma CharsShape(ds: seq<nat>)
    requires Fives(ds)
    ensures var s := Chars32(ds); (s == [] || s[|s| - 1] != PAD) && Upper(s) == s
  {
    hide Char32;
    forall i | 0 <= i < |ds| ensures Char32(ds[i]) != PAD && UpperChar(Char32(ds[i])) == Char32(ds[i]) {
      CharValue32(ds[i]);
    }
  }

  lemma PaddingMatches(b: Bytes)
    ensures Missing(|Digits32(b)|, 8) == if |b| % 5 == 0 then 0 else 8 - Kept(|b| % 5)
    ensures Missing(|Digits32(b)|, 8) in {0, 1, 3, 4, 6} && (|Digits32(b)| + Missing(|Digits32(b)|, 8)) % 8 == 0
  {
    hide Digits32, Bytes32;
    DigitsLength(b);
  }

  /** For every number of bytes, the secret made of them, in any mixture of cases, is read back
      as those bytes. */
  lemma SecretRoundTrip(b: Bytes, typed: string)
    requires SameIgnoringCase(typed, SecretText(b))
    ensures KeyOf(typed) == Some(b)
    ensures KeyOf(SecretText(b)) == Some(b)
  {
    hide Digits32, Bytes32, Values32, Chars32, StripPads, Upper, Kept;
    var ds := Digits32(b);
    CaseFolds(typed, SecretText(b));
    CharsShape(ds);
    ValuesOfChars(ds);
    BytesBack(b);
    PaddingMatches(b);
    StripPadsUndoes(Chars32(ds), Missing(|ds|, 8));
  }

  /** An example of section 10 of RFC 4648: the bytes of `foo`. */
  lemma FooInBase32()
    ensures SecretText([0x66, 0x6f, 0x6f]) == "MZXW6"
  {
    hide Digits32, StripPads, GroupDigits, Encode32;
    var b: Bytes := [0x66, 0x6f, 0x6f];
    ShortDigits(b);
    FooPadded();
    FooDigits();
    assert Digits32(b) == [12, 25, 23, 22, 30];
    FooEncoded();
    StripPadsUndoes("MZXW6", 3);
  }

  lemma FooPadded()
    ensures var b: Bytes := [0x66, 0x6f, 0x6f]; b + Zeros(5 - |b|) == [0x66, 0x6f, 0x6f, 0, 0] && Kept(|b|) == 5
  {
    assert Zeros(2) == [0, 0];
  }

  lemma FooEncoded()
    requires Digits32([0x66, 0x6f, 0x6f]) == [12, 25, 23, 22, 30]
    ensures Encode32([0x66, 0x6f, 0x6f]) == "MZXW6" + Pads(3)
  {
    hide Digits32;
    var ds: seq<nat> := [12, 25, 23, 22, 30];
    assert Chars32(ds) == "MZXW6";
  }

  lemma FooDigits()
    ensures GroupDigits([0x66, 0x6f, 0x6f, 0, 0])[..5] == [12, 25, 23, 22, 30]
  {
    hide ToDigits, FromDigits;
    var b: Bytes := [0x66, 0x6f, 0x6f, 0, 0];
    FooValue();
    ToStep(439956209664, 32, 8);
    ToStep(13748631552, 32, 7);
    ToStep(429644736, 32, 6);
    ToStep(13426398, 32, 5);
    ToStep(419574, 32, 4);
    ToStep(13111, 32, 3);
    ToStep(409, 32, 2);
    ToStep(12, 32, 1);
    NoneTo();
  }

  lemma NoneTo()
    ensures ToDigits(0, 32, 0) == []
  {
  }

  lemma FooValue()
    ensures FromDigits([0x66, 0x6f, 0x6f, 0, 0], 256) == 439956209664
  {
    hide FromDigits;
    var none: seq<nat> := [];
    assert FromDigits(none, 256) == 0 by { NoneFrom(); }
    FromStep(none, 0x66, 256);
    FromStep([0x66], 0x6f, 256);
    FromStep([0x66, 0x6f], 0x6f, 256);
    FromStep([0x66, 0x6f, 0x6f], 0, 256);
    FromStep([0x66, 0x6f, 0x6f, 0], 0, 256);
    assert none + [0x66] == [0x66] && [0x66] + [0x6f] == [0x66, 0x6f];
    assert [0x66, 0x6f] + [0x6f] == [0x66, 0x6f, 0x6f] && [0x66, 0x6f, 0x6f] + [0] == [0x66, 0x6f, 0x6f, 0];
    assert [0x66, 0x6f, 0x6f, 0] + [0] == [0x66, 0x6f, 0x6f, 0, 0];
  }

  lemma NoneFrom()
    ensures FromDigits([], 256) == 0
  {
  }
}
