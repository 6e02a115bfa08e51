/** HOTP and TOTP: truncating a digest to six digits, and accepting a code within a window of
    time steps. HMAC-SHA-1 is any function to 20 bytes. */
module OneTimePassword {
  import opened Text
  import opened Encodings
  import Base32

  const DIGITS: nat := 6

  type Digest = d: Bytes | |d| == 20 witness Zeros(20)

  type Hmac = (Bytes, Bytes) -> Digest

  // ---------------------------------------------------------------- decimal digits

  function DigitChar(d: nat): char
    requires d < 10
  {
    ('0' as int + d) as char
  }

  function Decimal(n: nat): (s: string)
    ensures s != []
  {
    if n < 10 then [DigitChar(n)] else Decimal(n / 10) + [DigitChar(n % 10)]
  }

  function ZFill(s: string, width: nat): string
    decreases if |s| < width then width - |s| else 0
  {
    if |s| < width then ZFill(['0'] + s, width) else s
  }

  function DigitChars(ds: seq<nat>): (s: string)
    requires forall i :: 0 <= i < |ds| ==> ds[i] < 10
    ensures |s| == |ds| && forall i :: 0 <= i < |s| ==> s[i] == DigitChar(ds[i])
  {
    if ds == [] then [] else [DigitChar(ds[0])] + DigitChars(ds[1..])
  }

  function Nulls(n: nat): (s: string)
    ensures |s| == n && forall i :: 0 <= i < n ==> s[i] == '0'
  {
    if n == 0 then [] else Nulls(n - 1) + ['0']
  }

  lemma {:induction false} ZFillPads(s: string, width: nat)
    requires |s| <= width
    ensures ZFill(s, width) == Nulls(width - |s|) + s
    decreases width - |s|
  {
    if |s| < width {
      ZFillPads(['0'] + s, width);
      assert Nulls(width - |s|) == Nulls(width - |s| - 1) + ['0'];
    }
  }

  /** A number that fits in `width` digits, filled up with zeros, is its `width` last digits. */
  lemma {:induction false} FilledDecimal(n: nat, width: nat)
    requires width > 0 && n < Pow(10, width)
    ensures |Decimal(n)| <= width
    ensures Nulls(width - |Decimal(n)|) + Decimal(n) == DigitChars(ToDigits(n, 10, width))
    decreases width
  {
    if n < 10 {
      FilledDigit(n, width);
    } else {
      TenthFits(n, width);
      FilledDecimal(n / 10, width - 1);
      FilledLast(n, width);
    }
  }

  lemma TenthFits(n: nat, width: nat)
    requires width > 0 && 10 <= n < Pow(10, width)
    ensures width > 1 && n / 10 < Pow(10, width - 1)
  {
    assert Pow(10, 0) == 1;
  }

  lemma FilledLast(n: nat, width: nat)
    requires width > 1 && n >= 10 && |Decimal(n / 10)| < width
    requires Nulls(width - 1 - |Decimal(n / 10)|) + Decimal(n / 10) == DigitChars(ToDigits(n / 10, 10, width - 1))
    ensures |Decimal(n)| <= width
    ensures Nulls(width - |Decimal(n)|) + Decimal(n) == DigitChars(ToDigits(n, 10, width))
  {
    hide ToDigits, DigitChars;
    ToStep(n, 10, width);
    DigitCharsLast(ToDigits(n / 10, 10, width - 1), n % 10);
  }

  lemma FilledDigit(n: nat, width: nat)
    requires width > 0 && n < 10
    ensures Nulls(width - 1) + Decimal(n) == DigitChars(ToDigits(n, 10, width)) && |Decimal(n)| == 1
  {
    hide ToDigits, DigitChars;
    ToStep(n, 10, width);
    ZeroDigits(width - 1);
    DigitCharsLast(ToDigits(0, 10, width - 1), n);
  }

  lemma DigitCharsLast(ds: seq<nat>, d: nat)
    requires d < 10 && forall i :: 0 <= i < |ds| ==> ds[i] < 10
    ensures DigitChars(ds + [d]) == DigitChars(ds) + [DigitChar(d)]
  {
  }

  lemma {:induction false} ZeroDigits(width: nat)
    ensures DigitChars(ToDigits(0, 10, width)) == Nulls(width)
  {
    if width > 0 {
      ZeroDigits(width - 1);
      ToStep(0, 10, width);
      DigitCharsLast(ToDigits(0, 10, width - 1), 0);
    }
  }

  predicate IsDigits(s: string) {
    s != [] && forall i :: 0 <= i < |s| ==> '0' <= s[i] <= '9'
  }

  lemma DigitCharsInjective(a: seq<nat>, b: seq<nat>)
    requires forall i :: 0 <= i < |a| ==> a[i] < 10
    requires forall i :: 0 <= i < |b| ==> b[i] < 10
    requires DigitChars(a) == DigitChars(b)
    ensures a == b
  {
    forall i | 0 <= i < |a| ensures a[i] == b[i] {
      assert DigitChars(a)[i] == DigitChars(b)[i];
    }
  }

  /** A value below a million becomes exactly six digits, different for different values. */
  lemma SixDigits(n: nat, m: nat)
    requires n < 1000000 && m < 1000000
    ensures |ZFill(Decimal(n), DIGITS)| == DIGITS && IsDigits(ZFill(Decimal(n), DIGITS))
    ensures ZFill(Decimal(n), DIGITS) == ZFill(Decimal(m), DIGITS) ==> n == m
  {
    hide ToDigits, DigitChars, Decimal, ZFill, FromDigits;
    Million();
    FilledDecimal(n, DIGITS);
    FilledDecimal(m, DIGITS);
    ZFillPads(Decimal(n), DIGITS);
    ZFillPads(Decimal(m), DIGITS);
    DigitsThenValue(n, 10, DIGITS);
    DigitsThenValue(m, 10, DIGITS);
    if DigitChars(ToDigits(n, 10, DIGITS)) == DigitChars(ToDigits(m, 10, DIGITS)) {
      DigitCharsInjective(ToDigits(n, 10, DIGITS), ToDigits(m, 10, DIGITS));
    }
  }

  lemma Million()
    ensures Pow(10, DIGITS) == 1000000
  {
    assert Pow(10, 1) == 10 && Pow(10, 2) == 100 && Pow(10, 3) == 1000;
    assert Pow(10, 4) == 10000 && Pow(10, 5) == 100000;
  }

  // ---------------------------------------------------------------- HOTP

  const TWO_64: nat := 0x1_0000_0000_0000_0000
  const TWO_31: nat := 0x8000_0000

  /** Four bytes at an offset given by the last one, without the sign bit. */
  function Truncate(d: Digest): nat {
    var off := d[19] % 16;
    FromBytes(d[off..off + 4]) % TWO_31
  }

  /** The counter goes into eight bytes; one that does not fit is an error, as is a secret that
      is not base32. */
  function Hotp(hmac: Hmac, secret: string, counter: int): Option<string> {
    if Base32.KeyOf(secret).None? || counter < 0 || counter >= TWO_64 then None
    else Some(ZFill(Decimal(Truncate(hmac(Base32.KeyOf(secret).value, ToBytes(counter, 8))) % 1000000), DIGITS))
  }

  /** The four bytes lie within the digest; their value without the sign bit is below 2^31 and
      so an unsigned 32-bit number; and the code is six digits that determine, and are determined
      by, the last six digits of that value. */
  lemma HotpIsSixDigits(hmac: Hmac, secret: string, counter: int, other: int)
    requires Hotp(hmac, secret, counter).Some? && Hotp(hmac, secret, other).Some?
    ensures var key := Base32.KeyOf(secret).value;
            var d, e := hmac(key, ToBytes(counter, 8)), hmac(key, ToBytes(other, 8));
            var code := Hotp(hmac, secret, counter).value;
            && d[19] % 16 + 4 <= 19 && Truncate(d) < TWO_31
            && |code| == DIGITS && IsDigits(code) && Strip(code) == code
            && (Hotp(hmac, secret, other).value == code <==> Truncate(d) % 1000000 == Truncate(e) % 1000000)
  {
    hide Decimal, ZFill, FromDigits, ToDigits;
    var key := Base32.KeyOf(secret).value;
    var d, e := hmac(key, ToBytes(counter, 8)), hmac(key, ToBytes(other, 8));
    SixDigits(Truncate(d) % 1000000, Truncate(e) % 1000000);
    StripFixed(Hotp(hmac, secret, counter).value);
  }

  /** The digits of a decimal number below a million, one by one. */
  function LastSix(v: nat): (s: string)
    ensures |s| == 6
  {
    [DigitChar(v / 100000 % 10), DigitChar(v / 10000 % 10), DigitChar(v / 1000 % 10),
     DigitChar(v / 100 % 10), DigitChar(v / 10 % 10), DigitChar(v % 10)]
  }

  lemma SixDigitsAre(n: nat)
    requires n < 1000000
    ensures ZFill(Decimal(n), DIGITS) == LastSix(n)
  {
    hide ToDigits, DigitChars, Decimal, ZFill;
    Million();
    FilledDecimal(n, DIGITS);
    ZFillPads(Decimal(n), DIGITS);
    var a := n / 10;
    var b := a / 10;
    var c := b / 10;
    var d := c / 10;
    var e := d / 10;
    ToStep(n, 10, 6);
    ToStep(a, 10, 5);
    ToStep(b, 10, 4);
    ToStep(c, 10, 3);
    ToStep(d, 10, 2);
    ToStep(e, 10, 1);
    var ds := ToDigits(n, 10, 6);
    assert ds == [e % 10, d % 10, c % 10, b % 10, a % 10, n % 10];
    assert e == n / 100000 && d == n / 10000 && c == n / 1000 && b == n / 100;
    assert DigitChars(ds) == LastSix(n);
  }

  /** The number in four bytes, most significant first and without the sign bit. */
  function FourBytes(a: nat, b: nat, c: nat, d: nat): nat {
    a % 128 * 16777216 + b * 65536 + c * 256 + d
  }

  lemma SignBit(a: nat, b: nat, c: nat, d: nat)
    requires a < 256 && b < 256 && c < 256 && d < 256
    ensures (((a * 256 + b) * 256 + c) * 256 + d) % TWO_31 == FourBytes(a, b, c, d)
  {
    var v := ((a * 256 + b) * 256 + c) * 256 + d;
    if a < 128 {
      assert v < TWO_31;
    } else {
      assert a % 128 == a - 128;
      assert v - TWO_31 == FourBytes(a, b, c, d) < TWO_31;
    }
  }

  lemma TruncateIs(d: Digest)
    ensures var o := d[19] % 16; Truncate(d) == FourBytes(d[o], d[o + 1], d[o + 2], d[o + 3])
  {
    hide FromDigits;
    var o := d[19] % 16;
    FourValue(d[o..o + 4]);
    SignBit(d[o], d[o + 1], d[o + 2], d[o + 3]);
  }

  lemma FromNone()
    ensures FromDigits([], 256) == 0
  {
  }

  /** The code for every digest: the last byte says where, in its lower four bits, the next four
      bytes make a number without its sign bit, and the code is the number's last six digits. So
      no other byte matters. */
  lemma HotpReadsFourBytes(hmac: Hmac, secret: string, counter: nat)
    requires Base32.KeyOf(secret).Some? && counter < TWO_64
    ensures var d := hmac(Base32.KeyOf(secret).value, ToBytes(counter, 8));
            var o := d[19] % 16;
            Hotp(hmac, secret, counter) == Some(LastSix(FourBytes(d[o], d[o + 1], d[o + 2], d[o + 3]) % 1000000))
  {
    hide Decimal, ZFill, Truncate, ToDigits, FourBytes, LastSix;
    var d := hmac(Base32.KeyOf(secret).value, ToBytes(counter, 8));
    TruncateIs(d);
    SixDigitsAre(Truncate(d) % 1000000);
  }

  /** Two digests with the same last byte, and the same four bytes there up to the sign bit, give
      the same code, whatever else is in them. */
  lemma OtherBytesDoNotMatter(f: Hmac, g: Hmac, secret: string, counter: nat)
    requires Base32.KeyOf(secret).Some? && counter < TWO_64
    requires var key := Base32.KeyOf(secret).value;
             var d, e := f(key, ToBytes(counter, 8)), g(key, ToBytes(counter, 8));
             var o := d[19] % 16;
             e[19] == d[19] && e[o] % 128 == d[o] % 128 && e[o + 1..o + 4] == d[o + 1..o + 4]
    ensures Hotp(f, secret, counter) == Hotp(g, secret, counter)
  {
    hide Hotp, LastSix, FourBytes;
    var key := Base32.KeyOf(secret).value;
    var d, e := f(key, ToBytes(counter, 8)), g(key, ToBytes(counter, 8));
    var o := d[19] % 16;
    HotpReadsFourBytes(f, secret, counter);
    HotpReadsFourBytes(g, secret, counter);
    SameFour(d, e, o);
  }

  lemma SameFour(d: Digest, e: Digest, o: nat)
    requires o < 16 && e[o] % 128 == d[o] % 128 && e[o + 1..o + 4] == d[o + 1..o + 4]
    ensures FourBytes(d[o], d[o + 1], d[o + 2], d[o + 3]) == FourBytes(e[o], e[o + 1], e[o + 2], e[o + 3])
  {
    assert e[o + 1] == e[o + 1..o + 4][0] && e[o + 2] == e[o + 1..o + 4][1] && e[o + 3] == e[o + 1..o + 4][2];
  }

  /** The digest worked out in section 5.4 of RFC 4226, and its code. */
  const PUBLISHED: Bytes := [
    0x1f, 0x86, 0x98, 0x69, 0x0e, 0x02, 0xca, 0x16, 0x61, 0x85,
    0x50, 0xef, 0x7f, 0x19, 0xda, 0x8e, 0x94, 0x5b, 0x55, 0x5a]

  lemma PublishedCode(hmac: Hmac, secret: string, counter: nat)
    requires Base32.KeyOf(secret).Some? && counter < TWO_64
    requires hmac(Base32.KeyOf(secret).value, ToBytes(counter, 8)) == PUBLISHED
    ensures Hotp(hmac, secret, counter) == Some("872921")
  {
    hide Hotp, LastSix, FourBytes;
    HotpReadsFourBytes(hmac, secret, counter);
    PublishedBytes();
    PublishedDigits();
  }

  lemma PublishedBytes()
    ensures PUBLISHED[19] % 16 == 10 && PUBLISHED[10] == 0x50 && PUBLISHED[11] == 0xef
    ensures PUBLISHED[12] == 0x7f && PUBLISHED[13] == 0x19
  {
  }

  lemma PublishedDigits()
    ensures LastSix(FourBytes(0x50, 0xef, 0x7f, 0x19) % 1000000) == "872921"
  {
    hide LastSix;
    assert FourBytes(0x50, 0xef, 0x7f, 0x19) == 1357872921;
    PublishedSix();
  }

  lemma PublishedSix()
    ensures LastSix(872921) == "872921"
  {
  }

  /** Eight bytes, most significant first, are enough for every counter that is accepted, and tell
      counters apart. */
  lemma CounterBytes(a: nat, b: nat)
    requires a < TWO_64 && b < TWO_64
    ensures FromBytes(ToBytes(a, 8)) == a
    ensures ToBytes(a, 8) == ToBytes(b, 8) ==> a == b
    ensures var c := ToBytes(a, 8);
            a == EightBytesOf(c[0], c[1], c[2], c[3], c[4], c[5], c[6], c[7])
  {
    hide ToDigits, FromDigits;
    EightBytes();
    DigitsThenValue(a, 256, 8);
    DigitsThenValue(b, 256, 8);
    EightValue(ToBytes(a, 8));
  }

  lemma EightValue(c: Bytes)
    requires |c| == 8
    ensures FromBytes(c) == EightBytesOf(c[0], c[1], c[2], c[3], c[4], c[5], c[6], c[7])
  {
    hide FromDigits;
    FourValue(c[..4]);
    FromNext(c, 4);
    FromNext(c, 5);
    FromNext(c, 6);
    FromNext(c, 7);
    assert c[..8] == c;
  }

  /** A number from its bytes, most significant first. */
  function EightBytesOf(a: nat, b: nat, c: nat, d: nat, e: nat, f: nat, g: nat, h: nat): nat {
    (((((((a * 256 + b) * 256 + c) * 256 + d) * 256 + e) * 256 + f) * 256 + g) * 256 + h)
  }

  lemma FourValue(c: Bytes)
    requires |c| == 4
    ensures FromBytes(c) == (((c[0] as int * 256 + c[1]) * 256 + c[2]) * 256 + c[3])
  {
    hide FromDigits;
    FromNone();
    FromNext(c, 0);
    FromNext(c, 1);
    FromNext(c, 2);
    FromNext(c, 3);
    assert c[..0] == [] && c[..4] == c;
  }

  lemma FromNext(c: Bytes, i: nat)
    requires i < |c|
    ensures FromDigits(c[..i + 1], 256) == FromDigits(c[..i], 256) * 256 + c[i]
  {
    FromStep(c[..i], c[i], 256);
    assert c[..i + 1] == c[..i] + [c[i]];
  }

  lemma EightBytes()
    ensures Pow(256, 8) == TWO_64
  {
    assert Pow(256, 1) == 256 && Pow(256, 2) == 65536 && Pow(256, 3) == 16777216 && Pow(256, 4) == 0x1_0000_0000;
    assert Pow(256, 5) == 0x100_0000_0000 && Pow(256, 6) == 0x1_0000_0000_0000 && Pow(256, 7) == 0x100_0000_0000_0000;
  }

  // ---------------------------------------------------------------- TOTP

  /** A step is 30 seconds. */
  function Steps(time: real): int {
    (time / 30.0).Floor
  }

  function Seconds(steps: nat): real {
    steps as real * 30.0
  }

  function TotpAt(hmac: Hmac, secret: string, time: real): Option<string> {
    Hotp(hmac, secret, Steps(time))
  }

  /** A step is 30 seconds, counted from the epoch. */
  lemma StepsMean(time: real, n: int)
    ensures Steps(time) == n <==> 30.0 * n as real <= time < 30.0 * (n as real + 1.0)
  {
    var x := time / 30.0;
    assert x * 30.0 == time;
  }

  datatype Verdict = Raised | Says(ok: bool)

  predicate InWindow(step: int, time: real, window: nat) {
    Steps(time) - window <= step <= Steps(time) + window
  }

  /** All steps of the window are computed, whichever matches. The answer is yes exactly if the
      trimmed code is the password of one of them; an error is raised exactly if a code of digits
      meets a secret or a window that has no password. */
  method TotpVerify(hmac: Hmac, secret: string, code: string, time: real, window: nat) returns (v: Verdict)
    ensures v.Raised? <==>
              IsDigits(Strip(code)) && exists step :: InWindow(step, time, window) && Hotp(hmac, secret, step) == None
    ensures v.Says? ==> (v.ok <==> Accepted(hmac, secret, code, time, window))
  {
    hide Hotp, Strip;
    var trimmed := Strip(code);
    if !IsDigits(trimmed) { return Says(false); }
    var counter := Steps(time);
    var first: int := counter - window;
    var ok := false;
    for step: int := first to counter + window + 1
      invariant forall s :: first <= s < step ==> Hotp(hmac, secret, s) != None
      invariant ok <==> exists s :: first <= s < step && Hotp(hmac, secret, s) == Some(trimmed)
    {
      var password := Hotp(hmac, secret, step);
      if password.None? {
        assert InWindow(step, time, window);
        return Raised;
      }
      ok := password == Some(trimmed) || ok;
    }
    assert forall s :: InWindow(s, time, window) <==> first <= s < counter + window + 1;
    return Says(ok);
  }

  /** A code that is accepted. */
  ghost predicate Accepted(hmac: Hmac, secret: string, code: string, time: real, window: nat) {
    && IsDigits(Strip(code))
    && (exists step :: InWindow(step, time, window) && Hotp(hmac, secret, step) == Some(Strip(code)))
    && (forall step :: InWindow(step, time, window) ==> Hotp(hmac, secret, step) != None)
  }

  lemma StepsWithin(t0: real, t: real, window: nat)
    requires t0 <= t
    ensures t - t0 <= Seconds(window) ==> Steps(t) - Steps(t0) <= window
    ensures Steps(t0) <= Steps(t)
  {
    var x0, x := t0 / 30.0, t / 30.0;
    assert x - x0 == (t - t0) / 30.0;
  }

  lemma HotpExists(hmac: Hmac, secret: string, counter: int)
    ensures Hotp(hmac, secret, counter) != None <==> Base32.KeyOf(secret).Some? && 0 <= counter < TWO_64
  {
  }

  /** A password made at one time is accepted, with any whitespace around it, at every time whose
      step is within the window, provided the whole window has counters that fit. */
  lemma AcceptedWithinWindow(hmac: Hmac, secret: string, made: real, time: real, window: nat, typed: string)
    requires TotpAt(hmac, secret, made).Some? && Strip(typed) == TotpAt(hmac, secret, made).value
    requires window <= Steps(time) && Steps(time) + window < TWO_64
    requires InWindow(Steps(made), time, window)
    ensures Accepted(hmac, secret, typed, time, window)
  {
    hide Hotp, Strip, Steps;
    HotpIsDigits(hmac, secret, Steps(made));
    HotpExists(hmac, secret, Steps(made));
    forall step | InWindow(step, time, window) ensures Hotp(hmac, secret, step) != None {
      HotpExists(hmac, secret, step);
    }
    assert Hotp(hmac, secret, Steps(made)) == Some(Strip(typed));
  }

  /** In particular it is accepted at every time within `window` periods before or after. */
  lemma AcceptedInTime(hmac: Hmac, secret: string, made: real, time: real, window: nat, typed: string)
    requires TotpAt(hmac, secret, made).Some? && Strip(typed) == TotpAt(hmac, secret, made).value
    requires window <= Steps(time) && Steps(time) + window < TWO_64
    requires made - Seconds(window) <= time <= made + Seconds(window)
    ensures Accepted(hmac, secret, typed, time, window)
  {
    hide Hotp, Strip, Steps, Accepted, Seconds;
    if made <= time { StepsWithin(made, time, window); } else { StepsWithin(time, made, window); }
    AcceptedWithinWindow(hmac, secret, made, time, window, typed);
  }

  /** And only near then: what is accepted at some time is the password of a moment less than
      `window + 1` periods before or after it. */
  lemma AcceptedOnlyNear(hmac: Hmac, secret: string, code: string, time: real, window: nat) returns (made: real)
    requires Accepted(hmac, secret, code, time, window)
    ensures TotpAt(hmac, secret, made) == Some(Strip(code))
    ensures time - 30.0 * (window as real + 1.0) < made < time + 30.0 * (window as real + 1.0)
  {
    hide Hotp, Strip, Steps;
    var step :| InWindow(step, time, window) && Hotp(hmac, secret, step) == Some(Strip(code));
    made := 30.0 * step as real;
    StepsMean(made, step);
    StepsMean(time, Steps(time));
  }

  lemma HotpIsDigits(hmac: Hmac, secret: string, counter: int)
    requires Hotp(hmac, secret, counter).Some?
    ensures IsDigits(Hotp(hmac, secret, counter).value)
  {
    HotpIsSixDigits(hmac, secret, counter, counter);
  }

  /** Only six digits are ever accepted, and near the epoch nothing is: a window that reaches
      below step zero raises an error instead. */
  lemma AcceptedMeans(hmac: Hmac, secret: string, code: string, time: real, window: nat)
    requires Accepted(hmac, secret, code, time, window)
    ensures |Strip(code)| == DIGITS && window <= Steps(time)
  {
    hide Hotp, Strip, Steps;
    var step :| InWindow(step, time, window) && Hotp(hmac, secret, step) == Some(Strip(code));
    HotpIsSixDigits(hmac, secret, step, step);
    assert InWindow(Steps(time) - window, time, window);
    HotpExists(hmac, secret, Steps(time) - window);
  }
}
