/** The OAuth authority's data and its single decisions: validating an authorization request,
    remembered consent, PKCE, client authentication, and the store of authorization codes and
    refresh tokens. Secrets and random tokens are plain strings, standing for their hashes. */
module OAuth {
  import opened Text

  datatype GrantType = AuthorizationCode | RefreshToken | ClientCredentials
  datatype AuthMethod = SecretBasic | SecretPost | NoSecret
  /** How a code challenge was made; two spellings are accepted when a code is requested. */
  datatype ChallengeMethod = S256 | Plain | PlainOtherCase | OtherMethod

  datatype Client = Client(
    id: string,
    tenant: string,
    redirectUris: set<string>,
    grants: set<GrantType>,
    scopes: seq<string>,
    authMethod: AuthMethod,
    trusted: bool,
    secret: Option<string>)

  /** Who is logged in when a client asks for authorization. */
  datatype Ident = Ident(user: string, tenant: string)

  datatype AuthzParams = AuthzParams(
    clientId: string,
    redirectUri: string,
    wantsCode: bool,
    scope: string,
    challenge: string,
    how: ChallengeMethod)

  datatype AuthzError =
    | InvalidClient | RedirectNotRegistered          // answered directly
    | UnsupportedResponseType | UnauthorizedClient | InvalidScope
    | ChallengeRequired | UnsupportedMethod          // sent back by redirect

  datatype Resolution = Granted(client: Client, scopes: seq<string>) | Denied(error: AuthzError)

  function Resolve(clients: map<string, Client>, p: AuthzParams): Resolution {
    if p.clientId !in clients then Denied(InvalidClient)
    else
      var c := clients[p.clientId];
      if p.redirectUri !in c.redirectUris then Denied(RedirectNotRegistered)
      else if !p.wantsCode then Denied(UnsupportedResponseType)
      else if AuthorizationCode !in c.grants then Denied(UnauthorizedClient)
      else
        var granted := Keep(Split(p.scope), c.scopes);
        if granted == [] then Denied(InvalidScope)
        else if c.authMethod == NoSecret && p.challenge == "" then Denied(ChallengeRequired)
        else if p.challenge != "" && p.how != S256 && p.how != Plain then Denied(UnsupportedMethod)
        else Granted(c, granted)
  }

  predicate Subset(a: seq<string>, b: seq<string>) {
    forall w :: w in a ==> w in b
  }

  predicate Words(a: seq<string>) {
    forall w :: w in a ==> IsWord(w)
  }

  /** What a validated request guarantees. */
  lemma ResolveMeans(clients: map<string, Client>, p: AuthzParams)
    requires Resolve(clients, p).Granted?
    ensures var Granted(c, g) := Resolve(clients, p);
            && p.clientId in clients && c == clients[p.clientId]
            && p.redirectUri in c.redirectUris
            && g != [] && Words(g) && Subset(g, c.scopes) && Subset(g, Split(p.scope))
            && (c.authMethod == NoSecret ==> p.challenge != "")
            && (p.challenge != "" ==> p.how == S256 || p.how == Plain)
  {
  }

  /** When a request is valid. */
  lemma ResolveIff(clients: map<string, Client>, p: AuthzParams)
    ensures Resolve(clients, p).Granted? <==>
              && p.clientId in clients
              && var c := clients[p.clientId];
                 && p.redirectUri in c.redirectUris && p.wantsCode && AuthorizationCode in c.grants
                 && (exists w :: w in Split(p.scope) && w in c.scopes)
                 && (c.authMethod == NoSecret ==> p.challenge != "")
                 && (p.challenge != "" ==> p.how == S256 || p.how == Plain)
  {
    if p.clientId in clients {
      var c := clients[p.clientId];
      var kept := Keep(Split(p.scope), c.scopes);
      if kept != [] { assert kept[0] in kept; }
    }
  }

  /** What is granted: the client, and of the scopes asked for exactly those it is registered for,
      in the order and with the repetitions of the request. */
  lemma GrantedIsWhatWasAsked(clients: map<string, Client>, p: AuthzParams) returns (at: seq<nat>)
    requires Resolve(clients, p).Granted?
    ensures var Granted(c, scopes) := Resolve(clients, p);
            && p.clientId in clients && c == clients[p.clientId]
            && (forall w :: w in scopes <==> w in Split(p.scope) && w in c.scopes)
            && Picks(at, Split(p.scope), c.scopes, scopes)
  {
    at := KeepPlaces(Split(p.scope), clients[p.clientId].scopes);
  }

  /** Which error each kind of invalid request gets, the first that applies: only an unknown
      client and an unregistered redirect URI are answered directly. */
  lemma DenialsMean(clients: map<string, Client>, p: AuthzParams)
    ensures Resolve(clients, p) == Denied(InvalidClient) <==> p.clientId !in clients
    ensures p.clientId in clients ==>
              var c, r := clients[p.clientId], Resolve(clients, p);
              var direct := p.redirectUri !in c.redirectUris;
              var response := direct || !p.wantsCode;
              var client := response || AuthorizationCode !in c.grants;
              var scope := client || forall w :: w in Split(p.scope) ==> w !in c.scopes;
              var challenge := scope || (c.authMethod == NoSecret && p.challenge == "");
              && (r == Denied(RedirectNotRegistered) <==> direct)
              && (r == Denied(UnsupportedResponseType) <==> response && !direct)
              && (r == Denied(UnauthorizedClient) <==> client && !response)
              && (r == Denied(InvalidScope) <==> scope && !client)
              && (r == Denied(ChallengeRequired) <==> challenge && !scope)
              && (r == Denied(UnsupportedMethod) <==> !challenge && p.challenge != "" && p.how !in {S256, Plain})
  {
    if p.clientId in clients {
      var c := clients[p.clientId];
      var kept := Keep(Split(p.scope), c.scopes);
      if kept != [] { assert kept[0] in kept; }
    }
  }

  // ---------------------------------------------------------------- consent

  datatype ConsentKey = ConsentKey(tenant: string, user: string, clientId: string)

  type Consent = map<ConsentKey, set<string>>

  lemma {:induction false} NormOfWords(scopes: seq<string>)
    requires Words(scopes)
    ensures Norm(scopes) == set w | w in scopes
  {
    if scopes != [] {
      assert IsWord(scopes[0]);
      StripFixed(scopes[0]);
      assert forall w :: w in scopes[1..] ==> w in scopes;
      NormOfWords(scopes[1..]);
      assert scopes == [scopes[0]] + scopes[1..];
    }
  }

  predicate Has(consent: Consent, key: ConsentKey, scopes: seq<string>) {
    key in consent && Norm(scopes) <= consent[key]
  }

  function ConsentGranted(consent: Consent, key: ConsentKey, scopes: seq<string>): Consent {
    consent[key := Norm(scopes) + if key in consent then consent[key] else {}]
  }

  class OAuthConsentStore {
    var rows: Consent

    constructor ()
      ensures rows == map[]
    {
      rows := map[];
    }

    method HasConsent(tenant: string, user: string, clientId: string, scopes: seq<string>) returns (ok: bool)
      ensures ok == Has(rows, ConsentKey(tenant, user, clientId), scopes)
    {
      var key := ConsentKey(tenant, user, clientId);
      ok := key in rows && Norm(scopes) <= rows[key];
    }

    method Grant(tenant: string, user: string, clientId: string, scopes: seq<string>)
      modifies this
      ensures rows == ConsentGranted(old(rows), ConsentKey(tenant, user, clientId), scopes)
      ensures Has(rows, ConsentKey(tenant, user, clientId), scopes)
    {
      var key := ConsentKey(tenant, user, clientId);
      var stored := if key in rows then rows[key] else {};
      rows := rows[key := Norm(scopes) + stored];
    }

    method Revoke(tenant: string, user: string, clientId: string) returns (deleted: bool)
      modifies this
      ensures deleted == (ConsentKey(tenant, user, clientId) in old(rows))
      ensures rows == old(rows) - {ConsentKey(tenant, user, clientId)}
    {
      var key := ConsentKey(tenant, user, clientId);
      deleted := key in rows;
      rows := rows - {key};
    }
  }

  // ---------------------------------------------------------------- PKCE and client authentication

  /** `digest` is the unpadded base64url form of the SHA-256 of a verifier. */
  predicate VerifyPkce(digest: string -> string, verifier: string, challenge: string, how: ChallengeMethod) {
    && verifier != "" && challenge != ""
    && if how == Plain || how == PlainOtherCase then verifier == challenge else digest(verifier) == challenge
  }

  /** A presented secret must match; without one the client is known but not authenticated. */
  function ClientAuth(clients: map<string, Client>, id: string, secret: string): Option<(Client, bool)> {
    if id == "" || id !in clients then None
    else if secret == "" then Some((clients[id], false))
    else if clients[id].secret == Some(secret) then Some((clients[id], true))
    else None
  }

  lemma ConfidentialMeansSecret(clients: map<string, Client>, id: string, secret: string)
    ensures var r := ClientAuth(clients, id, secret);
            && (r.Some? <==> id != "" && id in clients && (secret == "" || clients[id].secret == Some(secret)))
            && (r.Some? ==> r.value.0 == clients[id])
            && (r.Some? && r.value.1 <==>
                  id != "" && id in clients && secret != "" && clients[id].secret == Some(secret))
  {
  }

  /** A token request: who says to be asking, and for which grant. */
  datatype Grant =
    | CodeGrant(code: string, redirectUri: string, verifier: string)
    | RefreshGrant(token: string, scope: string)
    | ServiceGrant(scope: string)
    | OtherGrant

  datatype Form = Form(clientId: string, secret: string, grant: Grant)

  // ---------------------------------------------------------------- codes and refresh tokens

  /** `origin` numbers the authorization a grant descends from, and `root` the access token its
      code was redeemed for; both are bookkeeping of the model. */
  datatype CodePayload = CodePayload(
    clientId: string, user: string, tenant: string, redirectUri: string, scope: string,
    challenge: string, how: ChallengeMethod, origin: nat)

  datatype RefreshPayload = RefreshPayload(
    clientId: string, user: string, tenant: string, scope: string, origin: nat, root: nat)

  function Lookup<T>(m: map<string, T>, token: string): Option<T> {
    if token != "" && token in m then Some(m[token]) else None
  }

  /** The store of codes and refresh tokens. Consuming is one atomic fetch-and-delete. */
  class OAuthCodeStore {
    const enabled: bool
    var codes: map<string, CodePayload>
    var refresh: map<string, RefreshPayload>

    constructor (enabled: bool)
      ensures this.enabled == enabled && codes == map[] && refresh == map[]
    {
      this.enabled := enabled;
      codes, refresh := map[], map[];
    }

    method IssueCode(payload: CodePayload, random: string) returns (token: string)
      modifies this
      ensures token == random && refresh == old(refresh)
      ensures codes == if enabled then old(codes)[token := payload] else old(codes)
    {
      token := random;
      if enabled { codes := codes[token := payload]; }
    }

    method ConsumeCode(token: string) returns (payload: Option<CodePayload>)
      modifies this
      ensures payload == if enabled then Lookup(old(codes), token) else None
      ensures refresh == old(refresh)
      ensures codes == if enabled && token != "" then old(codes) - {token} else old(codes)
      ensures enabled ==> Lookup(codes, token) == None
    {
      if !enabled || token == "" { return None; }
      payload := if token in codes then Some(codes[token]) else None;
      codes := codes - {token};
    }

    method IssueRefresh(payload: RefreshPayload, random: string) returns (token: string)
      modifies this
      ensures token == random && codes == old(codes)
      ensures refresh == if enabled then old(refresh)[token := payload] else old(refresh)
    {
      token := random;
      if enabled { refresh := refresh[token := payload]; }
    }

    method PeekRefresh(token: string) returns (payload: Option<RefreshPayload>)
      ensures payload == if enabled then Lookup(refresh, token) else None
    {
      if !enabled || token == "" { return None; }
      payload := if token in refresh then Some(refresh[token]) else None;
    }

    method ConsumeRefresh(token: string) returns (payload: Option<RefreshPayload>)
      modifies this
      ensures payload == if enabled then Lookup(old(refresh), token) else None
      ensures codes == old(codes)
      ensures refresh == if enabled && token != "" then old(refresh) - {token} else old(refresh)
      ensures enabled ==> Lookup(refresh, token) == None
    {
      if !enabled || token == "" { return None; }
      payload := if token in refresh then Some(refresh[token]) else None;
      refresh := refresh - {token};
    }
  }

  /** Whose consent, to whom. */
  function KeyFor(client: Client, ident: Ident): ConsentKey {
    ConsentKey(ident.tenant, ident.user, client.id)
  }

  /** What a code for a validated request carries. */
  function PayloadFor(p: AuthzParams, client: Client, scopes: seq<string>, ident: Ident, origin: nat): CodePayload {
    CodePayload(client.id, ident.user, ident.tenant, p.redirectUri, Join(scopes), p.challenge, p.how, origin)
  }

  /** A code is good for a presenter who is the client it was issued to, names its redirect URI,
      and knows the verifier of its challenge or, without one, the client's secret. */
  predicate GoodCode(digest: string -> string, p: CodePayload, client: Client, confidential: bool,
                     redirectUri: string, verifier: string) {
    && p.clientId == client.id && p.redirectUri == redirectUri
    && (if p.challenge != "" then VerifyPkce(digest, verifier, p.challenge, p.how) else confidential)
  }

  /** What a good code takes, by the challenge it was asked for with: for S256 a verifier whose
      digest is the challenge, for plain the challenge itself, and without a challenge the
      client's secret. */
  lemma GoodCodeMeans(digest: string -> string, p: CodePayload, client: Client, confidential: bool,
                      redirectUri: string, verifier: string)
    ensures GoodCode(digest, p, client, confidential, redirectUri, verifier) <==>
              && p.clientId == client.id && p.redirectUri == redirectUri
              && (p.challenge == "" ==> confidential)
              && (p.challenge != "" && p.how in {Plain, PlainOtherCase} ==> verifier == p.challenge)
              && (p.challenge != "" && p.how !in {Plain, PlainOtherCase} ==>
                    verifier != "" && digest(verifier) == p.challenge)
  {
  }

  // ---------------------------------------------------------------- scopes at the token endpoint

  const OFFLINE_ACCESS: string := "offline_access"

  /** A scope that asks for refresh tokens. */
  predicate Offline(scope: string) {
    OFFLINE_ACCESS in Split(scope)
  }

  /** As a word of its own, wherever it stands. */
  lemma OfflineMeans(scope: string)
    ensures Offline(scope) <==> "offline_access" in Split(scope)
    ensures Offline("openid offline_access") && !Offline("openid")
  {
    hide Offline, Split, Join;
    var words := ["openid", "offline_access"];
    Spaceless();
    JoinIs(["openid"], "offline_access");
    assert ["openid"] + ["offline_access"] == words;
    JoinIs([], "openid");
    SplitJoin(words);
    SplitJoin(["openid"]);
    assert words[1] == "offline_access";
    OfflineIs("openid offline_access");
    OfflineIs("openid");
    OfflineIs(scope);
    assert "openid" + [' '] + "offline_access" == "openid offline_access";
  }

  lemma OfflineIs(scope: string)
    ensures Offline(scope) <==> "offline_access" in Split(scope)
  {
  }

  lemma Spaceless()
    ensures IsWord("openid") && IsWord("offline_access")
  {
  }

  /** A refresh may narrow the scope; narrowing to nothing keeps it. */
  function Narrow(granted: string, requested: string): string {
    var kept := Keep(Split(requested), Split(granted));
    if requested == "" || kept == [] then granted else Join(kept)
  }

  /** The words of a narrowed scope are among the words it was narrowed from, and there is
      still at least one. */
  lemma NarrowOnlyNarrows(granted: string, requested: string)
    requires Split(granted) != []
    ensures Split(Narrow(granted, requested)) != []
    ensures Subset(Split(Narrow(granted, requested)), Split(granted))
    ensures var kept := Keep(Split(requested), Split(granted));
            Split(Narrow(granted, requested)) == if requested == "" || kept == [] then Split(granted) else kept
  {
    SplitJoin(Keep(Split(requested), Split(granted)));
  }

  /** The scope of a service token: what it asked for and may have, or else all it may have. */
  function ServiceScope(client: Client, requested: string): string {
    var kept := Join(Keep(Split(requested), client.scopes));
    if kept == "" then Join(client.scopes) else kept
  }

  /** Its words are exactly the registered ones among those asked for, or all registered ones if
      there are none such. */
  lemma ServiceScopeWithinClient(client: Client, requested: string)
    requires Words(client.scopes)
    ensures Subset(Split(ServiceScope(client, requested)), client.scopes)
    ensures forall w :: w in Split(ServiceScope(client, requested)) <==>
              && w in client.scopes
              && (w in Split(requested) || forall v :: v in Split(requested) ==> v !in client.scopes)
  {
    var kept := Keep(Split(requested), client.scopes);
    SplitJoin(kept);
    SplitJoin(client.scopes);
    if kept != [] {
      assert kept[0] in kept;
      assert Split([]) == [];
    }
  }
}
