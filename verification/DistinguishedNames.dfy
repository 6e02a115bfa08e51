/** The DN printer and parser of the LDAP layer: how a uid, a tenant and a role become
    distinguished names, and how they are read back. The escaping is the service's own
    variant of section 2.4 of RFC 4514: a backslash before each special character. */
module DistinguishedNames {
  import opened Text

  const BACKSLASH: char := '\\'

  predicate IsSpecial(c: char) {
    c == ',' || c == '+' || c == '\"' || c == BACKSLASH || c == '<' || c == '>' || c == ';' || c == '=' || c == '\0'
  }

  // ---------------------------------------------------------------- escape and unescape

  function Escape(v: string): (r: string) {
    if v == [] then []
    else (if IsSpecial(v[0]) then [BACKSLASH, v[0]] else [v[0]]) + Escape(v[1..])
  }

  /** `esc` is set when the previous character was an unescaped backslash. */
  function UnescapeFrom(esc: bool, v: string): string
    decreases |v|
  {
    if v == [] then []
    else if esc then [v[0]] + UnescapeFrom(false, v[1..])
    else if v[0] == BACKSLASH then UnescapeFrom(true, v[1..])
    else [v[0]] + UnescapeFrom(false, v[1..])
  }

  function Unescape(v: string): string {
    UnescapeFrom(false, v)
  }

  lemma {:induction false} EscapeConcat(v: string, w: string)
    ensures Escape(v + w) == Escape(v) + Escape(w)
  {
    if v == [] {
      assert v + w == w;
    } else {
      assert (v + w)[1..] == v[1..] + w;
      EscapeConcat(v[1..], w);
    }
  }

  method EscapeDn(v: string) returns (r: string)
    ensures r == Escape(v)
  {
    r := [];
    for i := 0 to |v|
      invariant r == Escape(v[..i])
    {
      EscapeConcat(v[..i], [v[i]]);
      assert v[..i + 1] == v[..i] + [v[i]];
      assert [v[i]][1..] == [];
      if IsSpecial(v[i]) {
        r := r + [BACKSLASH, v[i]];
      } else {
        r := r + [v[i]];
      }
    }
    assert v[..|v|] == v;
  }

  method UnescapeDn(v: string) returns (r: string)
    ensures r == Unescape(v)
  {
    r := [];
    var esc := false;
    for i := 0 to |v|
      invariant Unescape(v) == r + UnescapeFrom(esc, v[i..])
    {
      assert v[i..][1..] == v[i + 1..];
      if esc {
        r := r + [v[i]];
        esc := false;
      } else if v[i] == BACKSLASH {
        esc := true;
      } else {
        r := r + [v[i]];
      }
    }
  }

  /** Unescaping what was escaped gives the value back, for every value. */
  lemma {:induction false} UnescapeEscape(v: string)
    ensures Unescape(Escape(v)) == v
  {
    if v != [] {
      UnescapeEscape(v[1..]);
      var e := Escape(v[1..]);
      assert ([v[0]] + e)[1..] == e;
      if IsSpecial(v[0]) {
        assert Escape(v) == [BACKSLASH] + ([v[0]] + e);
        assert Escape(v)[1..] == [v[0]] + e;
        assert UnescapeFrom(true, [v[0]] + e) == [v[0]] + v[1..];
      }
    }
  }

  /** Which characters are escaped, and how. */
  lemma EscapeSpells(v: string, c: char)
    ensures Escape([]) == []
    ensures Escape(v + [c]) == Escape(v) + if c in ",+\"\\<>;=" || c == '\0' then ['\\', c] else [c]
  {
    EscapeConcat(v, [c]);
    assert [c][1..] == [];
  }

  /** Reading back: a backslash is dropped and the character after it taken as it is. */
  lemma UnescapeReads(c: char, rest: string)
    ensures Unescape([]) == [] && Unescape(['\\']) == []
    ensures Unescape(['\\', c] + rest) == [c] + Unescape(rest)
    ensures c != '\\' ==> Unescape([c] + rest) == [c] + Unescape(rest)
  {
    var pair := ['\\', c] + rest;
    assert ([c] + rest)[1..] == rest;
    assert pair[1..] == [c] + rest;
    assert UnescapeFrom(true, pair[1..]) == [c] + UnescapeFrom(false, rest);
    assert ['\\'][1..] == [];
  }

  lemma EscapeInjective(v: string, w: string)
    requires Escape(v) == Escape(w)
    ensures v == w
  {
    UnescapeEscape(v);
    UnescapeEscape(w);
  }

  // ---------------------------------------------------------------- split

  /** The parts between unescaped commas, before they are stripped. */
  function SplitRaw(cur: string, esc: bool, s: string): (parts: seq<string>)
    ensures |parts| >= 1
    decreases |s|
  {
    if s == [] then [cur]
    else if esc then SplitRaw(cur + [s[0]], false, s[1..])
    else if s[0] == BACKSLASH then SplitRaw(cur + [s[0]], true, s[1..])
    else if s[0] == ',' then [cur] + SplitRaw([], false, s[1..])
    else SplitRaw(cur + [s[0]], false, s[1..])
  }

  function Clean(parts: seq<string>): seq<string> {
    if parts == [] then []
    else (if Strip(parts[0]) == [] then [] else [Strip(parts[0])]) + Clean(parts[1..])
  }

  function Split(dn: string): seq<string> {
    Clean(SplitRaw([], false, dn))
  }

  lemma {:induction false} CleanAppend(a: seq<string>, b: seq<string>)
    ensures Clean(a + b) == Clean(a) + Clean(b)
  {
    if a == [] {
      assert a + b == b;
    } else {
      assert (a + b)[1..] == a[1..] + b;
      CleanAppend(a[1..], b);
    }
  }

  method SplitDn(dn: string) returns (rdns: seq<string>)
    ensures rdns == Split(dn)
  {
    var parts: seq<string>, cur: string, esc := [], [], false;
    for i := 0 to |dn|
      invariant SplitRaw([], false, dn) == parts + SplitRaw(cur, esc, dn[i..])
    {
      assert dn[i..][1..] == dn[i + 1..];
      if esc {
        cur := cur + [dn[i]];
        esc := false;
      } else if dn[i] == BACKSLASH {
        cur := cur + [dn[i]];
        esc := true;
      } else if dn[i] == ',' {
        assert parts + ([cur] + SplitRaw([], false, dn[i + 1..])) == (parts + [cur]) + SplitRaw([], false, dn[i + 1..]);
        parts := parts + [cur];
        cur := [];
      } else {
        cur := cur + [dn[i]];
      }
    }
    parts := parts + [cur];
    rdns := Clean(parts);
  }

  lemma SplitRawPair(cur: string, c: char, tail: string)
    ensures SplitRaw(cur, false, [BACKSLASH, c] + tail) == SplitRaw(cur + [BACKSLASH, c], false, tail)
  {
    assert ([BACKSLASH, c] + tail)[1..] == [c] + tail;
    assert ([c] + tail)[1..] == tail;
    assert cur + [BACKSLASH] + [c] == cur + [BACKSLASH, c];
  }

  lemma SplitRawOne(cur: string, c: char, tail: string)
    requires !IsSpecial(c)
    ensures SplitRaw(cur, false, [c] + tail) == SplitRaw(cur + [c], false, tail)
  {
    assert ([c] + tail)[1..] == tail;
  }

  /** An escaped value holds no unescaped comma and leaves no escape open. */
  lemma {:induction false} SplitRawEscaped(cur: string, v: string, rest: string)
    ensures SplitRaw(cur, false, Escape(v) + rest) == SplitRaw(cur + Escape(v), false, rest)
    decreases |v|
  {
    hide SplitRaw, IsSpecial;
    if v == [] {
      assert Escape(v) + rest == rest && cur + Escape(v) == cur;
    } else {
      var first := if IsSpecial(v[0]) then [BACKSLASH, v[0]] else [v[0]];
      var tail := Escape(v[1..]) + rest;
      assert Escape(v) + rest == first + tail;
      if IsSpecial(v[0]) { SplitRawPair(cur, v[0], tail); } else { SplitRawOne(cur, v[0], tail); }
      SplitRawEscaped(cur + first, v[1..], rest);
      assert cur + first + Escape(v[1..]) == cur + Escape(v);
    }
  }

  lemma {:induction false} SplitRawPlain(cur: string, a: string, rest: string)
    requires ',' !in a && BACKSLASH !in a
    ensures SplitRaw(cur, false, a + rest) == SplitRaw(cur + a, false, rest)
    decreases |a|
  {
    if a == [] {
      assert a + rest == rest && cur + a == cur;
    } else {
      assert (a + rest)[1..] == a[1..] + rest;
      SplitRawPlain(cur + [a[0]], a[1..], rest);
      assert cur + [a[0]] + a[1..] == cur + a;
    }
  }

  /** One RDN: an attribute prefix such as `uid=` before an escaped value. */
  function Rdn(attr: string, v: string): string {
    attr + Escape(v)
  }

  function Below(attr: string, v: string, base: string): string {
    Rdn(attr, v) + [','] + base
  }

  lemma SplitRawBelow(attr: string, v: string, base: string)
    requires IsAttribute(attr)
    ensures SplitRaw([], false, Below(attr, v, base)) == [Rdn(attr, v)] + SplitRaw([], false, base)
  {
    assert Below(attr, v, base) == attr + (Escape(v) + ([','] + base));
    SplitRawPlain([], attr, Escape(v) + ([','] + base));
    assert [] + attr == attr;
    SplitRawEscaped(attr, v, [','] + base);
    assert ([','] + base)[1..] == base;
  }

  // ---------------------------------------------------------------- building DNs

  const UID: string := "uid="
  const OU: string := "ou="
  const CN: string := "cn="

  /** What the parser needs of an attribute prefix: letters and then the `=`. */
  predicate IsAttribute(attr: string) {
    && |attr| > 1
    && attr[|attr| - 1] == '='
    && forall i :: 0 <= i < |attr| - 1 ==> 'a' <= attr[i] <= 'z'
  }

  lemma Attributes()
    ensures IsAttribute(UID) && IsAttribute(OU) && IsAttribute(CN)
  {
  }

  function UserDn(uid: string, userBase: string): string {
    Below(UID, uid, userBase)
  }

  function TenantDn(tenant: string, tenantBase: string): string {
    Below(OU, tenant, tenantBase)
  }

  function RoleDn(tenant: string, role: string, tenantBase: string): string {
    Below(CN, role, TenantDn(tenant, tenantBase))
  }

  /** How the DNs are spelled. */
  lemma DnsAreSpelled()
    ensures UserDn("a,b", "ou=p") == "uid=a\\,b,ou=p"
    ensures RoleDn("t", "r", "dc=x") == "cn=r,ou=t,dc=x"
  {
    hide Escape;
    Plain("t");
    Plain("r");
    Plain("a");
    Plain("b");
    EscapeSpells("a", ',');
    EscapeConcat("a,", "b");
    assert "a" + [','] == "a," && "a," + "b" == "a,b";
    assert Escape("a,b") == "a\\,b";
  }

  lemma {:induction false} Plain(v: string)
    requires forall i :: 0 <= i < |v| ==> 'a' <= v[i] <= 'z'
    ensures Escape(v) == v
  {
    if v != [] {
      Plain(v[1..]);
      assert v == [v[0]] + v[1..];
    }
  }

  // ---------------------------------------------------------------- reading DNs back

  /** The text before and after the first `=`, as `str.partition` gives it. */
  function BeforeEq(s: string): string {
    if s == [] || s[0] == '=' then [] else [s[0]] + BeforeEq(s[1..])
  }

  function AfterEq(s: string): string {
    if s == [] then [] else if s[0] == '=' then s[1..] else AfterEq(s[1..])
  }

  function UidFromDn(dn: string): string {
    var parts := Split(dn);
    if parts == [] then dn
    else if '=' in parts[0] then Unescape(AfterEq(parts[0]))
    else dn
  }

  function FirstOu(rdns: seq<string>): string {
    if rdns == [] then []
    else if Lower(Strip(BeforeEq(rdns[0]))) == "ou" then Unescape(Strip(AfterEq(rdns[0])))
    else FirstOu(rdns[1..])
  }

  function TenantFromRoleDn(dn: string): string {
    var parts := Split(dn);
    if parts == [] then [] else FirstOu(parts[1..])
  }

  /** What splitting does with any DN: a part without backslashes ends at its comma, and is kept
      without its outer whitespace unless it is blank. */
  lemma SplitReads(part: string, rest: string)
    requires ',' !in part && BACKSLASH !in part
    ensures Split(part + [','] + rest) == (if Strip(part) == "" then [] else [Strip(part)]) + Split(rest)
    ensures Split(part) == if Strip(part) == "" then [] else [Strip(part)]
  {
    assert part + [','] + rest == part + ([','] + rest) && ([','] + rest)[1..] == rest;
    assert [] + part == part && part + [] == part;
    SplitRawPlain([], part, [','] + rest);
    SplitRawPlain([], part, []);
    CleanAppend([part], SplitRaw([], false, rest));
    assert [part][1..] == [];
  }

  /** Reading the tenant: the value of the first `ou`, in any case and spacing of the key. */
  lemma FirstOuReads(key: string, value: string, rest: seq<string>)
    requires '=' !in key
    ensures FirstOu([key + ['='] + value] + rest)
            == if SameIgnoringCase(Strip(key), "ou") then Unescape(Strip(value)) else FirstOu(rest)
  {
    hide Strip, Unescape;
    assert key + ['='] + value == key + (['='] + value);
    EqSplits(key, value);
    CaseFolds(Strip(key), "ou");
    OuKey();
    assert ([key + ['='] + value] + rest)[1..] == rest;
  }

  /** Reading a uid: the value of the first component, or the whole where there is none. */
  lemma UidReads(dn: string, key: string, value: string, rest: seq<string>)
    requires '=' !in key
    ensures Split(dn) == [key + ['='] + value] + rest ==> UidFromDn(dn) == Unescape(value)
    ensures Split(dn) == [] || '=' !in Split(dn)[0] ==> UidFromDn(dn) == dn
  {
    hide Split, Unescape;
    assert key + ['='] + value == key + (['='] + value);
    EqSplits(key, value);
    assert (key + ['='] + value)[|key|] == '=';
  }

  // Whitespace is never escaped, so stripping commutes with escaping.

  lemma {:induction false} EscapeSpaces(s: string)
    requires AllSpace(s)
    ensures Escape(s) == s
  {
    if s != [] {
      assert IsSpace(s[0]);
      EscapeSpaces(s[1..]);
      assert [s[0]] + s[1..] == s;
    }
  }

  lemma {:induction false} EscapeEnds(v: string)
    requires v != []
    ensures Escape(v) != []
    ensures Escape(v)[|Escape(v)| - 1] == v[|v| - 1]
    ensures Escape(v)[0] == v[0] || Escape(v)[0] == BACKSLASH
  {
    if |v| > 1 {
      EscapeEnds(v[1..]);
      var e := Escape(v[1..]);
      assert Escape(v)[|Escape(v)| - 1] == e[|e| - 1];
    } else {
      assert v[1..] == [];
    }
  }

  lemma EscapeRStrip(v: string) returns (tail: string)
    ensures AllSpace(tail) && Escape(v) == Escape(RStrip(v)) + tail
    ensures RStrip(v) == [] || (Escape(RStrip(v)) != [] && !IsSpace(Escape(RStrip(v))[|Escape(RStrip(v))| - 1]))
  {
    tail := RStripParts(v);
    EscapeConcat(RStrip(v), tail);
    EscapeSpaces(tail);
    if RStrip(v) != [] { EscapeEnds(RStrip(v)); }
  }

  lemma VisibleChars()
    ensures !IsSpace('=') && !IsSpace(BACKSLASH)
    ensures forall c :: 'a' <= c <= 'z' ==> !IsSpace(c)
  {
  }

  lemma RdnEnds(attr: string, v: string)
    requires IsAttribute(attr)
    requires v == [] || (Escape(v) != [] && !IsSpace(Escape(v)[|Escape(v)| - 1]))
    ensures var r := Rdn(attr, v); r != [] && !IsSpace(r[0]) && !IsSpace(r[|r| - 1])
  {
    VisibleChars();
    var r := Rdn(attr, v);
    assert r[0] == attr[0];
    if v == [] {
      assert r[|r| - 1] == '=';
    } else {
      assert r[|r| - 1] == Escape(v)[|Escape(v)| - 1];
    }
  }

  /** The first RDN of a built DN, as the parser reads it: stripping reaches through the
      escaping and takes the value's trailing whitespace with it. */
  lemma FirstRdn(attr: string, v: string)
    requires IsAttribute(attr)
    ensures Strip(Rdn(attr, v)) == Rdn(attr, RStrip(v))
    ensures Rdn(attr, v) != []
  {
    var core := RStrip(v);
    var tail := EscapeRStrip(v);
    RdnEnds(attr, core);
    assert Rdn(attr, v) == Rdn(attr, core) + tail;
    StripAround(Rdn(attr, core), tail);
  }

  /** A built DN is exactly one RDN followed by the RDNs of its base, whatever the value
      contains: no comma, `=` or backslash in a value can add or remove a level. */
  lemma SplitBuilt(attr: string, v: string, base: string)
    requires IsAttribute(attr)
    ensures Split(Below(attr, v, base)) == [Rdn(attr, RStrip(v))] + Split(base)
  {
    SplitRawBelow(attr, v, base);
    CleanAppend([Rdn(attr, v)], SplitRaw([], false, base));
    FirstRdn(attr, v);
    assert [Rdn(attr, v)][1..] == [];
    assert Clean([Rdn(attr, v)]) == [Rdn(attr, RStrip(v))];
  }

  lemma AfterEqOfRdn(attr: string, v: string)
    requires IsAttribute(attr)
    ensures '=' in Rdn(attr, v)
    ensures AfterEq(Rdn(attr, v)) == Escape(v)
    ensures BeforeEq(Rdn(attr, v)) == attr[..|attr| - 1]
  {
    assert Rdn(attr, v)[|attr| - 1] == '=';
    EqSplits(attr[..|attr| - 1], Escape(v));
    assert Rdn(attr, v) == attr[..|attr| - 1] + (['='] + Escape(v));
  }

  lemma {:induction false} EqSplits(key: string, value: string)
    requires '=' !in key
    ensures AfterEq(key + (['='] + value)) == value
    ensures BeforeEq(key + (['='] + value)) == key
  {
    if key == [] {
      assert key + (['='] + value) == ['='] + value;
    } else {
      assert (key + (['='] + value))[1..] == key[1..] + (['='] + value);
      EqSplits(key[1..], value);
    }
  }

  /** Reading the uid out of a user DN gives the uid without its trailing whitespace. */
  lemma UidOfUserDn(uid: string, base: string)
    ensures UidFromDn(UserDn(uid, base)) == RStrip(uid)
  {
    Attributes();
    SplitBuilt(UID, uid, base);
    AfterEqOfRdn(UID, RStrip(uid));
    UnescapeEscape(RStrip(uid));
  }

  /** So the round trip holds for exactly the uids that do not end in whitespace. */
  lemma UidRoundTrip(uid: string, base: string)
    ensures UidFromDn(UserDn(uid, base)) == uid <==> uid == [] || !IsSpace(uid[|uid| - 1])
  {
    UidOfUserDn(uid, base);
    if uid == [] || !IsSpace(uid[|uid| - 1]) {
      RStripUnique(uid, []);
      assert uid + [] == uid;
    } else {
      var _ := RStripParts(uid);
    }
  }

  lemma UidRoundTripFails()
    ensures UidFromDn(UserDn("ada ", "ou=people,dc=x")) == "ada"
  {
    UidOfUserDn("ada ", "ou=people,dc=x");
    RStripUnique("ada", " ");
    assert "ada" + " " == "ada ";
  }

  lemma StripEscape(v: string)
    ensures Strip(Escape(v)) == Escape(Strip(v))
  {
    var l := LStrip(v);
    var head := LStripParts(v);
    EscapeConcat(head, l);
    EscapeSpaces(head);
    VisibleChars();
    if l != [] { EscapeEnds(l); }
    LStripUnique(head, Escape(l));
    var tail := EscapeRStrip(l);
    if RStrip(l) == [] { assert Escape([]) == []; }
    RStripUnique(Escape(RStrip(l)), tail);
  }

  lemma OuKey()
    ensures Lower(Strip("ou")) == "ou" && Lower("ou") == "ou"
  {
    VisibleChars();
    StripFixed("ou");
    assert Lower("ou") == "ou";
  }

  lemma FirstOuOfRdn(v: string, rest: seq<string>)
    ensures FirstOu([Rdn(OU, v)] + rest) == Strip(v)
  {
    Attributes();
    AfterEqOfRdn(OU, v);
    assert OU[..|OU| - 1] == "ou";
    OuKey();
    StripEscape(v);
    UnescapeEscape(Strip(v));
  }

  /** Reading the tenant out of a role DN gives the tenant stripped on both sides, for
      every role name. */
  lemma TenantOfRoleDn(tenant: string, role: string, base: string)
    ensures TenantFromRoleDn(RoleDn(tenant, role, base)) == Strip(tenant)
  {
    Attributes();
    SplitBuilt(CN, role, TenantDn(tenant, base));
    SplitBuilt(OU, tenant, base);
    var ous := [Rdn(OU, RStrip(tenant))] + Split(base);
    assert ([Rdn(CN, RStrip(role))] + ous)[1..] == ous;
    FirstOuOfRdn(RStrip(tenant), Split(base));
    StripRStrip(tenant);
  }

  lemma TenantRoundTrip(tenant: string, role: string, base: string)
    ensures TenantFromRoleDn(RoleDn(tenant, role, base)) == tenant <==> Trimmed(tenant)
  {
    TenantOfRoleDn(tenant, role, base);
    StripFixed(tenant);
  }

  /** Different users have different DNs. */
  lemma UserDnInjective(u: string, v: string, base: string)
    requires UserDn(u, base) == UserDn(v, base)
    ensures u == v
  {
    Attributes();
    SplitRawBelow(UID, u, base);
    SplitRawBelow(UID, v, base);
    assert ([Rdn(UID, u)] + SplitRaw([], false, base))[0] == ([Rdn(UID, v)] + SplitRaw([], false, base))[0];
    assert Rdn(UID, u)[|UID|..] == Escape(u);
    assert Rdn(UID, v)[|UID|..] == Escape(v);
    EscapeInjective(u, v);
  }

  /** Different (tenant, role) pairs have different group DNs: no role name can be chosen
      so that its group lands in another tenant's subtree. */
  lemma RoleDnInjective(t: string, r: string, t': string, r': string, base: string)
    requires RoleDn(t, r, base) == RoleDn(t', r', base)
    ensures t == t' && r == r'
  {
    Attributes();
    SplitRawBelow(CN, r, TenantDn(t, base));
    SplitRawBelow(CN, r', TenantDn(t', base));
    SplitRawBelow(OU, t, base);
    SplitRawBelow(OU, t', base);
    var a := SplitRaw([], false, RoleDn(t, r, base));
    assert a[0] == Rdn(CN, r) == Rdn(CN, r');
    assert a[1] == Rdn(OU, t) == Rdn(OU, t');
    assert Rdn(CN, r)[|CN|..] == Escape(r) && Rdn(CN, r')[|CN|..] == Escape(r');
    assert Rdn(OU, t)[|OU|..] == Escape(t) && Rdn(OU, t')[|OU|..] == Escape(t');
    EscapeInjective(r, r');
    EscapeInjective(t, t');
  }

  // ---------------------------------------------------------------- containment

  function DropSpaces(s: string): string {
    if s == [] then [] else (if s[0] == ' ' then [] else [s[0]]) + DropSpaces(s[1..])
  }

  function Norm(rdns: seq<string>): seq<string> {
    if rdns == [] then [] else [DropSpaces(Lower(Strip(rdns[0])))] + Norm(rdns[1..])
  }

  predicate Under(child: seq<string>, parent: seq<string>) {
    parent != [] && |child| > |parent| && child[|child| - |parent|..] == parent
  }

  /** Whether `dn` names an entry strictly below `base`. */
  predicate DnUnder(dn: string, base: string) {
    Under(Norm(Split(dn)), Norm(Split(base)))
  }

  /** The same component up to the case of letters and to blanks. */
  predicate Alike(a: string, b: string)
    decreases |a| + |b|
  {
    if a != [] && a[0] == ' ' then Alike(a[1..], b)
    else if b != [] && b[0] == ' ' then Alike(a, b[1..])
    else if a == [] || b == [] then a == b
    else SameLetter(a[0], b[0]) && Alike(a[1..], b[1..])
  }

  lemma {:induction false} AlikeIff(a: string, b: string)
    ensures Alike(a, b) <==> DropSpaces(Lower(a)) == DropSpaces(Lower(b))
    decreases |a| + |b|
  {
    hide Lower, DropSpaces;
    FoldStep(a);
    FoldStep(b);
    if a != [] && a[0] == ' ' {
      AlikeIff(a[1..], b);
    } else if b != [] && b[0] == ' ' {
      AlikeIff(a, b[1..]);
    } else if a != [] && b != [] {
      AlikeIff(a[1..], b[1..]);
      SameHead(LowerChar(a[0]), Fold(a[1..]), LowerChar(b[0]), Fold(b[1..]));
    }
  }

  function Fold(s: string): string {
    DropSpaces(Lower(s))
  }

  lemma FoldStep(s: string)
    ensures s == [] ==> Fold(s) == []
    ensures s != [] ==> Fold(s) == (if s[0] == ' ' then [] else [LowerChar(s[0])]) + Fold(s[1..])
  {
    if s != [] { assert Lower(s)[1..] == Lower(s[1..]); }
  }

  lemma SameHead(c: char, s: string, d: char, t: string)
    ensures [c] + s == [d] + t <==> c == d && s == t
  {
    if [c] + s == [d] + t {
      assert ([c] + s)[0] == c && ([d] + t)[0] == d;
      assert ([c] + s)[1..] == s && ([d] + t)[1..] == t;
    }
  }

  lemma {:induction false} NormAt(rdns: seq<string>)
    ensures |Norm(rdns)| == |rdns|
    ensures forall i :: 0 <= i < |rdns| ==> Norm(rdns)[i] == DropSpaces(Lower(Strip(rdns[i])))
  {
    hide DropSpaces, Lower, Strip;
    if rdns != [] { NormAt(rdns[1..]); }
  }

  lemma {:induction false} CleanIsTrimmed(parts: seq<string>)
    ensures forall p :: p in Clean(parts) ==> Strip(p) == p
  {
    hide Strip;
    if parts != [] {
      CleanIsTrimmed(parts[1..]);
      StripTrimmed(parts[0]);
      StripFixed(Strip(parts[0]));
    }
  }

  predicate Trim(rdns: seq<string>) {
    forall r :: r in rdns ==> Strip(r) == r
  }

  lemma TailAlike(c: seq<string>, p: seq<string>, i: nat)
    requires |p| < |c| && Trim(c) && Trim(p) && |Norm(c)| == |c| && |Norm(p)| == |p| && i < |p|
    ensures Norm(c)[|c| - |p|..][i] == Norm(p)[i] <==> Alike(c[|c| - |p| + i], p[i])
  {
    hide Alike, DropSpaces, Strip, Norm, Lower;
    NormAt(c);
    NormAt(p);
    assert c[|c| - |p| + i] in c && p[i] in p;
    AlikeIff(c[|c| - |p| + i], p[i]);
  }

  /** More components than `p`, ending in all of `p`'s, up to case and blanks. */
  predicate EndsAlike(c: seq<string>, p: seq<string>) {
    0 < |p| < |c| && forall i :: 0 <= i < |p| ==> Alike(c[|c| - |p| + i], p[i])
  }

  lemma UnderIff(c: seq<string>, p: seq<string>)
    requires Trim(c) && Trim(p)
    ensures Under(Norm(c), Norm(p)) <==> EndsAlike(c, p)
  {
    hide Alike, Norm, Trim;
    NormAt(c);
    NormAt(p);
    if |p| < |c| {
      var tail, whole := Norm(c)[|c| - |p|..], Norm(p);
      forall i | 0 <= i < |p| ensures Alike(c[|c| - |p| + i], p[i]) <==> tail[i] == whole[i] { TailAlike(c, p, i); }
      if EndsAlike(c, p) { assert tail == whole; }
    }
  }

  /** One DN is below another exactly if it has more components, and ends in all of the other's,
      up to case and blanks; nothing is below the empty one. */
  lemma DnUnderMeans(dn: string, base: string)
    ensures DnUnder(dn, base) <==> EndsAlike(Split(dn), Split(base))
  {
    hide Norm, Clean, SplitRaw, Strip, EndsAlike;
    CleanIsTrimmed(SplitRaw([], false, dn));
    CleanIsTrimmed(SplitRaw([], false, base));
    UnderIff(Split(dn), Split(base));
  }

  lemma UnderOneMore(first: string, parent: seq<string>)
    ensures Under([first] + parent, parent) <==> parent != []
  {
    assert ([first] + parent)[1..] == parent;
  }

  lemma UnderStrictOrder(x: seq<string>, y: seq<string>, z: seq<string>)
    ensures !Under(x, x)
    ensures Under(x, y) ==> !Under(y, x)
    ensures Under(x, y) && Under(y, z) ==> Under(x, z)
  {
    if Under(x, y) && Under(y, z) {
      assert x[|x| - |z|..] == x[|x| - |y|..][|y| - |z|..];
    }
  }

  lemma BelowIsUnder(attr: string, v: string, base: string)
    requires IsAttribute(attr)
    ensures DnUnder(Below(attr, v, base), base) <==> Split(base) != []
    ensures Norm(Split(Below(attr, v, base))) != []
  {
    SplitBuilt(attr, v, base);
    var parts := [Rdn(attr, RStrip(v))] + Split(base);
    assert parts[1..] == Split(base);
    UnderOneMore(DropSpaces(Lower(Strip(parts[0]))), Norm(Split(base)));
  }

  /** Every user DN lies under the user base, as long as the base names anything. */
  lemma UserDnUnderBase(uid: string, base: string)
    ensures DnUnder(UserDn(uid, base), base) <==> Split(base) != []
  {
    Attributes();
    BelowIsUnder(UID, uid, base);
  }

  lemma RoleDnUnderTenant(tenant: string, role: string, base: string)
    ensures DnUnder(RoleDn(tenant, role, base), TenantDn(tenant, base))
  {
    Attributes();
    SplitBuilt(OU, tenant, base);
    BelowIsUnder(CN, role, TenantDn(tenant, base));
  }

  /** Containment is a strict order: nothing is below itself, no two entries are below each
      other, and it composes. */
  lemma DnUnderStrictOrder(a: string, b: string, c: string)
    ensures !DnUnder(a, a)
    ensures DnUnder(a, b) ==> !DnUnder(b, a)
    ensures DnUnder(a, b) && DnUnder(b, c) ==> DnUnder(a, c)
  {
    UnderStrictOrder(Norm(Split(a)), Norm(Split(b)), Norm(Split(c)));
  }
}
