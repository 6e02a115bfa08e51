/** Service credentials: rows keyed by a public key id, whose secrets are kept as a keyed hash.
    The hash and the generation tag made from it are free constructors, so they are injective;
    random key ids and secrets are parameters, and so is the clock. */
module ServiceCredentials {
  import opened Text

  const ALL_SCOPES: seq<string> := ["webdav", "mcp", "bcf", "api"]

  datatype Mac = Mac(secret: string)
  datatype Generation = Generation(mac: Mac)

  datatype Row = Row(tenant: string, uid: string, mac: Mac, scopes: seq<string>, title: string, cidrs: seq<string>,
                     expires: Option<int>)

  type Rows = map<string, Row>

  datatype KeyCheck = KeyCheck(uid: string, generation: Generation, title: string)

  /** Whether the address, as written, is in the network, as written; false if either makes no
      sense. */
  type InNetwork = (string, string) -> bool

  // ---------------------------------------------------------------- scopes

  function Known(seen: set<string>, scopes: seq<string>): seq<string> {
    if scopes == [] then [] else (if scopes[0] in seen then [scopes[0]] else []) + Known(seen, scopes[1..])
  }

  function Seen(scopes: seq<string>): set<string> {
    if scopes == [] then {}
    else (if Strip(scopes[0]) == "" then {} else {Lower(Strip(scopes[0]))}) + Seen(scopes[1..])
  }

  function NormalizeScopes(scopes: seq<string>): seq<string> {
    if Known(Seen(scopes), ALL_SCOPES) == [] then ["webdav"] else Known(Seen(scopes), ALL_SCOPES)
  }

  lemma {:induction false} KnownMeans(seen: set<string>, scopes: seq<string>, w: string)
    ensures w in Known(seen, scopes) <==> w in seen && w in scopes
  {
    if scopes != [] { KnownMeans(seen, scopes[1..], w); }
  }

  /** A scope is asked for in any mixture of cases, and with any whitespace around it. */
  ghost predicate Asked(scopes: seq<string>, w: string) {
    exists i :: 0 <= i < |scopes| && Lower(Strip(scopes[i])) == w
  }

  lemma {:induction false} SeenMeans(scopes: seq<string>, w: string)
    requires w != ""
    ensures w in Seen(scopes) <==> Asked(scopes, w)
  {
    hide Strip, Lower;
    if scopes != [] {
      var rest := scopes[1..];
      SeenMeans(rest, w);
      EmptyLower();
      if Asked(rest, w) {
        var i :| 0 <= i < |rest| && Lower(Strip(rest[i])) == w;
        assert scopes[i + 1] == rest[i];
      }
      if i :| 0 <= i < |scopes| && Lower(Strip(scopes[i])) == w {
        if i > 0 { assert rest[i - 1] == scopes[i]; }
      }
    }
  }

  lemma EmptyLower()
    ensures Lower("") == ""
  {
  }

  lemma FourScopes(w: string)
    ensures w in ALL_SCOPES <==> w in {"webdav", "mcp", "bcf", "api"}
  {
    assert ALL_SCOPES[0] == "webdav" && ALL_SCOPES[1] == "mcp" && ALL_SCOPES[2] == "bcf" && ALL_SCOPES[3] == "api";
  }

  /** A credential always has a scope and only known ones: exactly those asked for, or the
      default if none of those is known. */
  lemma NormalizedScopes(scopes: seq<string>, w: string)
    ensures NormalizeScopes(scopes) != []
    ensures w in NormalizeScopes(scopes) <==>
              || (w in {"webdav", "mcp", "bcf", "api"} && Asked(scopes, w))
              || (w == "webdav" && forall v :: v in {"webdav", "mcp", "bcf", "api"} ==> !Asked(scopes, v))
  {
    hide Seen, Asked, Known;
    forall v | v in {"webdav", "mcp", "bcf", "api"} ensures v in Seen(scopes) <==> Asked(scopes, v) {
      SeenMeans(scopes, v);
    }
    forall v ensures v in ALL_SCOPES <==> v in {"webdav", "mcp", "bcf", "api"} { FourScopes(v); }
    NormalizedFrom(scopes, w);
  }

  lemma NormalizedFrom(scopes: seq<string>, w: string)
    ensures NormalizeScopes(scopes) != []
    ensures w in NormalizeScopes(scopes) ==> w in ALL_SCOPES
    ensures w in ALL_SCOPES && w in Seen(scopes) ==> w in NormalizeScopes(scopes)
    ensures w in NormalizeScopes(scopes) && w !in Seen(scopes) ==>
              w == "webdav" && forall v :: v in Seen(scopes) ==> v !in ALL_SCOPES
    ensures (forall v :: v in Seen(scopes) ==> v !in ALL_SCOPES) ==> "webdav" in NormalizeScopes(scopes)
  {
    forall v ensures v in Known(Seen(scopes), ALL_SCOPES) <==> v in Seen(scopes) && v in ALL_SCOPES {
      KnownMeans(Seen(scopes), ALL_SCOPES, v);
    }
    assert ALL_SCOPES[0] == "webdav";
    var known := Known(Seen(scopes), ALL_SCOPES);
    if known != [] { assert known[0] in known; }
  }

  // ---------------------------------------------------------------- the store

  /** What a request to use a key brings with it. */
  datatype Use = Use(tenant: string, scope: string, sourceIp: Option<string>, now: int)

  predicate Unexpired(row: Row, now: int) {
    row.expires.Some? ==> now < row.expires.value
  }

  predicate Pinned(inNet: InNetwork, ip: Option<string>, cidrs: seq<string>) {
    ip.Some? && ip.value != "" && exists c :: c in cidrs && inNet(ip.value, c)
  }

  /** Whether a credential may be used so, its secret apart. */
  predicate Usable(inNet: InNetwork, row: Row, u: Use) {
    && u.scope in ALL_SCOPES && u.scope in row.scopes
    && row.tenant == u.tenant && Unexpired(row, u.now)
    && (row.cidrs != [] ==> Pinned(inNet, u.sourceIp, row.cidrs))
  }

  /** The rule behind authentication (with a secret) and status (without). */
  function Checked(inNet: InNetwork, rows: Rows, key: string, secret: Option<string>, u: Use): Option<KeyCheck> {
    if key in rows && Usable(inNet, rows[key], u) && (secret.Some? ==> rows[key].mac == Mac(secret.value))
    then Some(KeyCheck(rows[key].uid, Generation(rows[key].mac), rows[key].title)) else None
  }

  /** A key and its secret authenticate exactly where the key is in good standing and the
      generation it is then stamped with is that secret's; so authentication implies status,
      with the same generation and owner. */
  lemma AuthenticateMeans(inNet: InNetwork, rows: Rows, key: string, secret: string, u: Use)
    ensures var a, st := Checked(inNet, rows, key, Some(secret), u), Checked(inNet, rows, key, None, u);
            && (a.Some? ==> st == a)
            && (a.Some? <==> st.Some? && st.value.generation == Generation(Mac(secret)))
  {
  }

  /** What the rule comes to: the key is there and bound to that tenant, not expired, for that
      scope, with that secret if one is presented; and if it is pinned to networks, the request
      comes from an address in one of them. */
  lemma CheckedIff(inNet: InNetwork, rows: Rows, key: string, secret: Option<string>, u: Use)
    ensures var r := Checked(inNet, rows, key, secret, u);
            && (r.Some? <==>
                  && key in rows
                  && var row := rows[key];
                     && row.tenant == u.tenant && (row.expires == None || u.now < row.expires.value)
                     && u.scope in {"webdav", "mcp", "bcf", "api"} && u.scope in row.scopes
                     && (secret.Some? ==> row.mac.secret == secret.value)
                     && (row.cidrs == [] ||
                         exists ip, c :: u.sourceIp == Some(ip) && ip != "" && c in row.cidrs && inNet(ip, c)))
            && (r.Some? ==> r.value == KeyCheck(rows[key].uid, Generation(rows[key].mac), rows[key].title))
  {
    FourScopes(u.scope);
  }

  function Owned(rows: Rows, uid: string): set<string> {
    set k | k in rows && rows[k].uid == uid
  }

  function Rotated(rows: Rows, key: string, renewed: Option<string>, secret: string): Rows
    requires key in rows
  {
    var row := rows[key].(mac := Mac(secret));
    if renewed.Some? then rows[renewed.value := row] - {key} else rows[key := row]
  }

  function WithoutTenant(rows: Rows, uid: string, tenant: string): Rows {
    map k | k in rows && !(rows[k].uid == uid && rows[k].tenant == tenant) :: rows[k]
  }

  lemma RotationKeepsCount(rows: Rows, key: string, renewed: Option<string>, secret: string, uid: string)
    requires key in rows && (renewed.Some? ==> renewed.value !in rows)
    ensures |Owned(Rotated(rows, key, renewed, secret), uid)| == |Owned(rows, uid)|
  {
    var before, after := Owned(rows, uid), Owned(Rotated(rows, key, renewed, secret), uid);
    if renewed.Some? && rows[key].uid == uid {
      assert key in before && renewed.value !in before;
      assert after == (before - {key}) + {renewed.value};
    } else {
      assert after == before;
    }
  }

  class ServiceCredentialStore {
    var rows: Rows
    var lastUsed: map<string, int>

    constructor ()
      ensures rows == map[]
    {
      rows, lastUsed := map[], map[];
    }

    /** `key` and `secret` are the random ones. */
    method Create(tenant: string, uid: string, scopes: seq<string>, title: string, expires: Option<int>,
                  cidrs: seq<string>, key: string, secret: string)
      returns (r: (string, string))
      requires key !in rows
      modifies this
      ensures r == (key, secret)
      ensures rows == old(rows)[key := Row(tenant, uid, Mac(secret), NormalizeScopes(scopes), title, cidrs, expires)]
    {
      rows := rows[key := Row(tenant, uid, Mac(secret), NormalizeScopes(scopes), title, cidrs, expires)];
      return (key, secret);
    }

    /** With `newKeyId` the credential moves to a fresh key id, otherwise it stays where it is.
        Either way only its secret changes, and its owner has as many credentials as before. */
    method Rotate(key: string, uid: string, newKeyId: bool, renewed: string, secret: string)
      returns (r: Option<(string, string)>)
      requires renewed !in rows
      modifies this
      ensures r.Some? <==> key in old(rows) && old(rows)[key].uid == uid
      ensures r.Some? ==>
                && r.value == (if newKeyId then renewed else key, secret)
                && rows == Rotated(old(rows), key, if newKeyId then Some(renewed) else None, secret)
                && r.value.0 in rows && rows[r.value.0] == old(rows)[key].(mac := Mac(secret))
                && |Owned(rows, uid)| == |Owned(old(rows), uid)|
      ensures r.None? ==> rows == old(rows)
    {
      if key !in rows || rows[key].uid != uid { return None; }
      RotationKeepsCount(rows, key, if newKeyId then Some(renewed) else None, secret, uid);
      var out := key;
      if newKeyId {
        rows := rows[renewed := rows[key].(mac := Mac(secret))];
        rows := rows - {key};
        out := renewed;
      } else {
        rows := rows[key := rows[key].(mac := Mac(secret))];
      }
      return Some((out, secret));
    }

    method Revoke(key: string, uid: string) returns (deleted: bool)
      modifies this
      ensures deleted <==> key in old(rows) && old(rows)[key].uid == uid
      ensures rows == if deleted then old(rows) - {key} else old(rows)
    {
      deleted := key in rows && rows[key].uid == uid;
      if deleted { rows := rows - {key}; }
    }

    /** Every credential of the user in this tenant is gone, and no other. */
    method RevokeAllForTenant(uid: string, tenant: string) returns (deleted: nat)
      modifies this
      ensures rows == WithoutTenant(old(rows), uid, tenant)
      ensures deleted == |old(rows)| - |rows|
    {
      var doomed := set k | k in rows && rows[k].uid == uid && rows[k].tenant == tenant;
      var before := rows;
      rows := rows - doomed;
      assert rows == WithoutTenant(before, uid, tenant);
      assert before.Keys == rows.Keys + doomed;
      deleted := |doomed|;
    }

    method IpInCidrs(inNet: InNetwork, ip: Option<string>, cidrs: seq<string>) returns (ok: bool)
      ensures ok == Pinned(inNet, ip, cidrs)
    {
      if ip.None? || ip.value == "" { return false; }
      for i := 0 to |cidrs|
        invariant forall j :: 0 <= j < i ==> !inNet(ip.value, cidrs[j])
      {
        if inNet(ip.value, cidrs[i]) { return true; }
      }
      return false;
    }

    method Check(inNet: InNetwork, key: string, secret: Option<string>, u: Use) returns (r: Option<KeyCheck>)
      modifies this`lastUsed
      ensures r == Checked(inNet, rows, key, secret, u)
      ensures lastUsed == if r.Some? then old(lastUsed)[key := u.now] else old(lastUsed)
    {
      if u.scope !in ALL_SCOPES { return None; }
      if key !in rows || rows[key].tenant != u.tenant { return None; }
      var row := rows[key];
      if row.expires.Some? && row.expires.value <= u.now { return None; }
      if u.scope !in row.scopes { return None; }
      if secret.Some? && Mac(secret.value) != row.mac { return None; }
      if row.cidrs != [] {
        var pinned := IpInCidrs(inNet, u.sourceIp, row.cidrs);
        if !pinned { return None; }
      }
      lastUsed := lastUsed[key := u.now];
      return Some(KeyCheck(row.uid, Generation(row.mac), row.title));
    }
  }

  // ---------------------------------------------------------------- runs

  datatype Event =
    | Creates(tenant: string, uid: string, scopes: seq<string>, title: string, expires: Option<int>, cidrs: seq<string>,
              key: string, secret: string)
    | Rotates(key: string, uid: string, newKeyId: bool, renewed: string, secret: string)
    | Revokes(key: string, uid: string)
    | RevokesAll(uid: string, tenant: string)

  /** The rows, with every key id and secret ever made. */
  datatype State = State(rows: Rows, keys: set<string>, secrets: set<string>)

  predicate NewNames(s: State, key: string, secret: string) {
    key !in s.keys && secret !in s.secrets
  }

  /** One operation; random key ids and secrets never repeat. */
  function Step(s: State, e: Event): State {
    match e
    case Creates(tenant, uid, scopes, title, expires, cidrs, key, secret) =>
      if !NewNames(s, key, secret) then s
      else State(s.rows[key := Row(tenant, uid, Mac(secret), NormalizeScopes(scopes), title, cidrs, expires)],
                 s.keys + {key}, s.secrets + {secret})
    case Rotates(key, uid, newKeyId, renewed, secret) =>
      if !NewNames(s, renewed, secret) || key !in s.rows || s.rows[key].uid != uid then s
      else State(Rotated(s.rows, key, if newKeyId then Some(renewed) else None, secret), s.keys + {renewed},
                 s.secrets + {secret})
    case Revokes(key, uid) => if key in s.rows && s.rows[key].uid == uid then s.(rows := s.rows - {key}) else s
    case RevokesAll(uid, tenant) => s.(rows := WithoutTenant(s.rows, uid, tenant))
  }

  function Init(): State {
    State(map[], {}, {})
  }

  function RunFrom(s: State, es: seq<Event>): State {
    if es == [] then s else Step(RunFrom(s, es[..|es| - 1]), es[|es| - 1])
  }

  function Run(es: seq<Event>): State {
    RunFrom(Init(), es)
  }

  predicate Inv(s: State) {
    forall k :: k in s.rows ==> k in s.keys && s.rows[k].mac.secret in s.secrets
  }

  lemma StepKeepsInv(s: State, e: Event)
    requires Inv(s)
    ensures Inv(Step(s, e)) && s.keys <= Step(s, e).keys && s.secrets <= Step(s, e).secrets
  {
    hide NormalizeScopes;
  }

  lemma {:induction false} RunKeepsInv(s: State, es: seq<Event>)
    requires Inv(s)
    ensures Inv(RunFrom(s, es)) && s.keys <= RunFrom(s, es).keys && s.secrets <= RunFrom(s, es).secrets
  {
    hide Step, Inv;
    if es != [] {
      RunKeepsInv(s, es[..|es| - 1]);
      StepKeepsInv(RunFrom(s, es[..|es| - 1]), es[|es| - 1]);
    }
  }

  /** The operations that are meant to end what was minted from a key: a rotation or revocation
      by its owner, and the revocation of everything its owner holds in its tenant. A rotation
      happens only with names never seen. */
  predicate Ends(s: State, e: Event, key: string, row: Row) {
    match e
    case Rotates(k, uid, _, renewed, secret) => k == key && uid == row.uid && NewNames(s, renewed, secret)
    case Revokes(k, uid) => k == key && uid == row.uid
    case RevokesAll(uid, tenant) => uid == row.uid && tenant == row.tenant
    case Creates(_, _, _, _, _, _, _, _) => false
  }

  predicate Ended(s: State, es: seq<Event>, key: string, row: Row) {
    exists i :: 0 <= i < |es| && Ends(RunFrom(s, es[..i]), es[i], key, row)
  }

  /** A session stamped with a key and a generation passes if the key's status can be had and
      has that generation. */
  predicate SessionPasses(inNet: InNetwork, s: State, key: string, generation: Generation, u: Use) {
    Checked(inNet, s.rows, key, None, u).Some? && Checked(inNet, s.rows, key, None, u).value.generation == generation
  }

  predicate Stands(s: State, key: string, row: Row) {
    key in s.rows && s.rows[key] == row
  }

  predicate Gone(s: State, key: string, row: Row) {
    && key in s.keys && row.mac.secret in s.secrets
    && (key in s.rows ==> s.rows[key].mac != row.mac)
  }

  lemma StepEndsOrKeeps(s: State, e: Event, key: string, row: Row)
    requires Inv(s)
    ensures Stands(s, key, row) ==>
            if Ends(s, e, key, row) then Gone(Step(s, e), key, row) else Stands(Step(s, e), key, row)
    ensures Gone(s, key, row) ==> Gone(Step(s, e), key, row)
  {
    hide NormalizeScopes;
  }

  lemma {:induction false} RunEndsOrKeeps(s: State, es: seq<Event>, key: string, row: Row)
    requires Inv(s) && Stands(s, key, row)
    ensures if Ended(s, es, key, row) then Gone(RunFrom(s, es), key, row) else Stands(RunFrom(s, es), key, row)
  {
    hide Step, Stands, Gone, Ends, Inv;
    if es != [] {
      var rest, last := es[..|es| - 1], es[|es| - 1];
      RunEndsOrKeeps(s, rest, key, row);
      RunKeepsInv(s, rest);
      StepEndsOrKeeps(RunFrom(s, rest), last, key, row);
      EndedLast(s, es, key, row);
    }
  }

  lemma EndedLast(s: State, es: seq<Event>, key: string, row: Row)
    requires es != []
    ensures var rest := es[..|es| - 1];
            Ended(s, es, key, row) <==> Ended(s, rest, key, row) || Ends(RunFrom(s, rest), es[|es| - 1], key, row)
  {
    hide Ends, RunFrom;
    var rest := es[..|es| - 1];
    forall i | 0 <= i < |rest| ensures rest[..i] == es[..i] {
    }
    if Ended(s, rest, key, row) {
      var i :| 0 <= i < |rest| && Ends(RunFrom(s, rest[..i]), rest[i], key, row);
      assert Ends(RunFrom(s, es[..i]), es[i], key, row);
    }
    if Ends(RunFrom(s, rest), es[|es| - 1], key, row) { assert es[..|es| - 1] == rest; }
    if Ended(s, es, key, row) && !Ends(RunFrom(s, rest), es[|es| - 1], key, row) {
      var i :| 0 <= i < |es| && Ends(RunFrom(s, es[..i]), es[i], key, row);
      assert Ends(RunFrom(s, rest[..i]), rest[i], key, row);
    }
  }

  /** Over every run: a session minted from a key passes later exactly if nothing that is meant
      to end it has happened and the key is still good for that tenant, scope, address and time. */
  lemma SessionPassesIff(inNet: InNetwork, es: seq<Event>, more: seq<Event>, key: string, u: Use)
    requires key in Run(es).rows
    ensures var row := Run(es).rows[key];
            SessionPasses(inNet, RunFrom(Run(es), more), key, Generation(row.mac), u)
            <==> !Ended(Run(es), more, key, row) && Usable(inNet, row, u)
  {
    hide Usable, Ended, Step;
    RunKeepsInv(Init(), es);
    RunEndsOrKeeps(Run(es), more, key, Run(es).rows[key]);
  }

  /** Revoking everything a user holds in a tenant ends every session of that user there. */
  lemma BulkRevocationEndsSessions(inNet: InNetwork, es: seq<Event>, uid: string, tenant: string, more: seq<Event>,
                                   key: string, u: Use)
    requires key in Run(es).rows && Run(es).rows[key].uid == uid && Run(es).rows[key].tenant == tenant
    ensures !SessionPasses(inNet, RunFrom(Run(es), [RevokesAll(uid, tenant)] + more), key,
                           Generation(Run(es).rows[key].mac), u)
  {
    hide Step, RunFrom;
    var all := [RevokesAll(uid, tenant)] + more;
    assert all[..0] == [] && RunFrom(Run(es), []) == Run(es) by { EmptyRun(Run(es)); }
    assert Ends(RunFrom(Run(es), all[..0]), all[0], key, Run(es).rows[key]);
    SessionPassesIff(inNet, es, all, key, u);
  }

  lemma EmptyRun(s: State)
    ensures RunFrom(s, []) == s
  {
  }
}
