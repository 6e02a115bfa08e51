/** The token endpoint, one request start to end: when each grant answers with tokens, and what
    it leaves in the stores whether it does or not. A `Look` is one reading of the gate's clock
    with what the registry answers if it is asked. */
module TokenEndpoint {
  import opened Text
  import opened OAuth
  import opened TenantGate

  datatype Look = Look(at: real, answer: Answer)

  datatype GrantError =
    | Unavailable
    | BadClient
    | UnsupportedGrant
    | InvalidGrant
    | RedirectMismatch
    | PkceMismatch
    | ClientNotAuthenticated
    | GrantUnauthorized
    | TenantNotLive

  datatype Body = Body(subject: string, tenant: string, clientId: string, scope: string, refreshToken: Option<string>)

  datatype Response = Tokens(body: Body) | Refused(error: GrantError)

  /** What the gate says to a look. */
  predicate LetThrough(cache: Cache, configured: bool, tenant: string, look: Look) {
    GateCall(cache, configured, tenant, look.at, look.answer).1.admits
  }

  function After(cache: Cache, configured: bool, tenant: string, look: Look): Cache {
    GateCall(cache, configured, tenant, look.at, look.answer).0
  }

  class Endpoint {
    const store: OAuthCodeStore
    const gate: TenantStateGate

    constructor (store: OAuthCodeStore, gate: TenantStateGate)
      ensures this.store == store && this.gate == gate
    {
      this.store := store;
      this.gate := gate;
    }

    /** Every grant answers through here, so no grant can skip the gate. */
    method Respond(client: Client, subject: string, tenant: string, scope: string, forUser: bool,
                   origin: nat, root: nat, look: Look, random: string) returns (r: Response)
      requires store.enabled
      modifies gate, store
      ensures gate.configured == old(gate.configured) && store.codes == old(store.codes)
      ensures gate.cache == After(old(gate.cache), gate.configured, tenant, look)
      ensures r == if LetThrough(old(gate.cache), gate.configured, tenant, look)
                   then Tokens(Body(subject, tenant, client.id, scope,
                                    if forUser && Offline(scope) then Some(random) else None))
                   else Refused(TenantNotLive)
      ensures store.refresh == if r.Tokens? && forUser && Offline(scope)
                               then old(store.refresh)[random :=
                                 RefreshPayload(client.id, subject, tenant, scope, origin, root)]
                               else old(store.refresh)
    {
      var admitted := gate.AdmitsTenant(tenant, look.at, look.answer);
      if !admitted.admits { return Refused(TenantNotLive); }
      var refreshToken := None;
      if forUser && Offline(scope) {
        var token := store.IssueRefresh(RefreshPayload(client.id, subject, tenant, scope, origin, root), random);
        refreshToken := Some(token);
      }
      return Tokens(Body(subject, tenant, client.id, scope, refreshToken));
    }

    /** Tokens come back exactly for a good code of a live tenant, for the user and scope the code
        carries; and the code is gone whatever the answer. For a code asked for with an S256
        challenge that takes a verifier with that digest, with a plain one the challenge itself,
        and without a challenge the client's secret. */
    method ExchangeCode(digest: string -> string, client: Client, confidential: bool, code: string, redirectUri: string,
                        verifier: string, look: Look, root: nat, random: string) returns (r: Response)
      requires store.enabled
      modifies gate, store
      ensures var p := Lookup(old(store.codes), code);
              && (r.Tokens? <==>
                    && p.Some? && GoodCode(digest, p.value, client, confidential, redirectUri, verifier)
                    && LetThrough(old(gate.cache), old(gate.configured), p.value.tenant, look))
              && (r == Refused(InvalidGrant) <==> p.None? || p.value.clientId != client.id)
              && (r == Refused(RedirectMismatch) <==>
                    p.Some? && p.value.clientId == client.id && p.value.redirectUri != redirectUri)
              && (r.Tokens? ==>
                    && r.body.subject == p.value.user && r.body.tenant == p.value.tenant
                    && r.body.scope == p.value.scope
                    && r.body.clientId == p.value.clientId
                    && (r.body.refreshToken == if Offline(p.value.scope) then Some(random) else None))
      ensures var p := Lookup(old(store.codes), code);
              p.Some? && p.value.clientId == client.id && p.value.redirectUri == redirectUri ==>
                var c, how := p.value.challenge, p.value.how;
                var live := LetThrough(old(gate.cache), old(gate.configured), p.value.tenant, look);
                && (c != "" && how == S256 ==> (r.Tokens? <==> verifier != "" && digest(verifier) == c && live))
                && (c != "" && how == Plain ==> (r.Tokens? <==> verifier != "" && verifier == c && live))
                && (c == "" ==> (r.Tokens? <==> confidential && live))
                && (c == "" ==> (r == Refused(ClientNotAuthenticated) <==> !confidential))
                && (c != "" && how == S256 ==>
                      (r == Refused(PkceMismatch) <==> verifier == "" || digest(verifier) != c))
                && (c != "" && how == Plain ==> (r == Refused(PkceMismatch) <==> verifier == "" || verifier != c))
      ensures r.Tokens? ||
              r.error in {InvalidGrant, RedirectMismatch, PkceMismatch, ClientNotAuthenticated, TenantNotLive}
      ensures Lookup(store.codes, code) == None
      ensures forall other :: other != code ==> Lookup(store.codes, other) == Lookup(old(store.codes), other)
      ensures forall other :: other != random ==> Lookup(store.refresh, other) == Lookup(old(store.refresh), other)
      ensures !r.Tokens? || r.body.refreshToken == None ==> store.refresh == old(store.refresh)
      ensures r.Tokens? && r.body.refreshToken.Some? ==>
                var p := old(store.codes)[code];
                && random in store.refresh
                && store.refresh[random] == RefreshPayload(client.id, p.user, p.tenant, p.scope, p.origin, root)
    {
      var p := store.ConsumeCode(code);
      if p.None? || p.value.clientId != client.id { return Refused(InvalidGrant); }
      if p.value.redirectUri != redirectUri { return Refused(RedirectMismatch); }
      if p.value.challenge != "" {
        if !VerifyPkce(digest, verifier, p.value.challenge, p.value.how) { return Refused(PkceMismatch); }
      } else if !confidential {
        return Refused(ClientNotAuthenticated);
      }
      r := Respond(client, p.value.user, p.value.tenant, p.value.scope, true, p.value.origin, root, look, random);
    }

    /** A refresh looks at the gate before it consumes anything: if that look refuses, the refresh
        tokens are as they were. Tokens come back exactly if both looks admit. */
    method Refresh(client: Client, token: string, scope: string, first: Look, second: Look, random: string)
      returns (r: Response)
      requires store.enabled
      modifies gate, store
      ensures r !in {Refused(Unavailable), Refused(BadClient), Refused(UnsupportedGrant)}
      ensures store.codes == old(store.codes)
      ensures var p := Lookup(old(store.refresh), token);
              var good := p.Some? && p.value.clientId == client.id;
              && (good && !LetThrough(old(gate.cache), old(gate.configured), p.value.tenant, first) ==>
                    r == Refused(TenantNotLive) && store.refresh == old(store.refresh))
              && (r == Refused(InvalidGrant) <==> !good)
              && (r.Tokens? <==>
                    && good
                    && LetThrough(old(gate.cache), old(gate.configured), p.value.tenant, first)
                    && LetThrough(After(old(gate.cache), old(gate.configured), p.value.tenant, first),
                                  old(gate.configured), p.value.tenant, second))
              && (r.Tokens? ==>
                    && r.body.subject == p.value.user && r.body.tenant == p.value.tenant
                    && r.body.clientId == p.value.clientId
                    && r.body.scope == Narrow(p.value.scope, scope)
                    && (Split(p.value.scope) != [] ==>
                          Split(r.body.scope) != [] && Subset(Split(r.body.scope), Split(p.value.scope)))
                    && (token != random ==> Lookup(store.refresh, token) == None)
                    && (r.body.refreshToken == if Offline(r.body.scope) then Some(random) else None)
                    && (r.body.refreshToken.Some? ==>
                          && random in store.refresh
                          && store.refresh[random] == p.value.(clientId := client.id, scope := r.body.scope)))
      ensures forall other :: other != token && other != random ==>
              Lookup(store.refresh, other) == Lookup(old(store.refresh), other)
    {
      var peeked := store.PeekRefresh(token);
      if peeked.Some? && peeked.value.clientId == client.id {
        var admitted := gate.AdmitsTenant(peeked.value.tenant, first.at, first.answer);
        if !admitted.admits { return Refused(TenantNotLive); }
      }
      var p := store.ConsumeRefresh(token);
      if p.None? || p.value.clientId != client.id { return Refused(InvalidGrant); }
      var narrowed := Narrow(p.value.scope, scope);
      if Split(p.value.scope) != [] { NarrowOnlyNarrows(p.value.scope, scope); }
      r := Respond(client, p.value.user, p.value.tenant, narrowed, true, p.value.origin, p.value.root, second, random);
    }

    method ForService(client: Client, confidential: bool, scope: string, first: Look, second: Look, random: string)
      returns (r: Response)
      requires store.enabled
      modifies gate, store
      ensures r !in {Refused(Unavailable), Refused(BadClient), Refused(UnsupportedGrant)}
      ensures store.codes == old(store.codes) && store.refresh == old(store.refresh)
      ensures r.Tokens? <==>
                && confidential && ClientCredentials in client.grants
                && LetThrough(old(gate.cache), old(gate.configured), client.tenant, first)
                && LetThrough(After(old(gate.cache), old(gate.configured), client.tenant, first), old(gate.configured),
                              client.tenant, second)
      ensures r == Refused(ClientNotAuthenticated) <==> !confidential
      ensures r == Refused(GrantUnauthorized) <==> confidential && ClientCredentials !in client.grants
      ensures r in {Refused(ClientNotAuthenticated), Refused(GrantUnauthorized), Refused(TenantNotLive)} || r.Tokens?
      ensures r.Tokens? ==> r.body == Body(client.id, client.tenant, client.id, ServiceScope(client, scope), None)
      ensures r.Tokens? ==>
                && (Words(client.scopes) ==> Subset(Split(r.body.scope), client.scopes))
    {
      if !confidential { return Refused(ClientNotAuthenticated); }
      if ClientCredentials !in client.grants { return Refused(GrantUnauthorized); }
      var granted := ServiceScope(client, scope);
      if Words(client.scopes) { ServiceScopeWithinClient(client, scope); }
      var admitted := gate.AdmitsTenant(client.tenant, first.at, first.answer);
      if !admitted.admits { return Refused(TenantNotLive); }
      r := Respond(client, client.id, client.tenant, granted, false, 0, 0, second, random);
    }

    /** The endpoint itself. Without its stores it is unavailable; a client that does not
        authenticate is turned away; in both cases, and for an unknown grant, nothing changes. */
    method Token(digest: string -> string, clients: map<string, Client>, form: Form, first: Look, second: Look,
                 root: nat, random: string)
      returns (r: Response)
      modifies gate, store
      ensures r.Tokens? <==>
                && store.enabled
                && ClientAuth(clients, form.clientId, form.secret).Some?
                && Deserved(digest, old(store.codes), old(store.refresh), old(gate.cache), old(gate.configured),
                            clients[form.clientId], form, first, second)
      ensures r == Refused(Unavailable) <==> !store.enabled
      ensures r == Refused(BadClient) <==> store.enabled && ClientAuth(clients, form.clientId, form.secret).None?
      ensures r == Refused(UnsupportedGrant) <==>
                store.enabled && ClientAuth(clients, form.clientId, form.secret).Some? && form.grant.OtherGrant?
      ensures r in {Refused(Unavailable), Refused(BadClient), Refused(UnsupportedGrant)} ==>
                store.codes == old(store.codes) && store.refresh == old(store.refresh) && gate.cache == old(gate.cache)
      ensures r.Tokens? ==> BodyFor(old(store.codes), old(store.refresh), clients[form.clientId], form, random, r.body)
      ensures form.grant.CodeGrant? && r.Tokens? ==> Lookup(store.codes, form.grant.code) == None
      ensures form.grant.RefreshGrant? && r.Tokens? && form.grant.token != random ==>
                Lookup(store.refresh, form.grant.token) == None
    {
      if !store.enabled { return Refused(Unavailable); }
      var auth := ClientAuth(clients, form.clientId, form.secret);
      if auth.None? { return Refused(BadClient); }
      var (client, confidential) := auth.value;
      match form.grant
      case CodeGrant(code, redirectUri, verifier) =>
        r := ExchangeCode(digest, client, confidential, code, redirectUri, verifier, first, root, random);
      case RefreshGrant(token, scope) => r := Refresh(client, token, scope, first, second, random);
      case ServiceGrant(scope) => r := ForService(client, confidential, scope, first, second, random);
      case OtherGrant => r := Refused(UnsupportedGrant);
    }
  }

  /** For whom, for which client and with which scope the tokens of each grant are. */
  predicate BodyFor(codes: map<string, CodePayload>, refresh: map<string, RefreshPayload>, client: Client, form: Form,
                    random: string, b: Body) {
    && b.clientId == client.id
    && match form.grant
       case CodeGrant(code, _, _) =>
         && Lookup(codes, code).Some?
         && var p := codes[code];
            && b.subject == p.user && b.tenant == p.tenant && b.scope == p.scope
            && b.refreshToken == if Offline(p.scope) then Some(random) else None
       case RefreshGrant(token, scope) =>
         && Lookup(refresh, token).Some?
         && var p := refresh[token];
            && b.subject == p.user && b.tenant == p.tenant && b.scope == Narrow(p.scope, scope)
            && b.refreshToken == if Offline(b.scope) then Some(random) else None
       case ServiceGrant(scope) =>
         && b.subject == client.id && b.tenant == client.tenant && b.scope == ServiceScope(client, scope)
         && b.refreshToken == None
       case OtherGrant => false
  }

  /** What a token request must show for to be answered with tokens, grant by grant. */
  predicate Deserved(digest: string -> string, codes: map<string, CodePayload>, refresh: map<string, RefreshPayload>,
                     cache: Cache, configured: bool, client: Client, form: Form, first: Look, second: Look) {
    match form.grant
    case CodeGrant(code, redirectUri, verifier) =>
      var p := Lookup(codes, code);
      && p.Some? && GoodCode(digest, p.value, client, form.secret != "", redirectUri, verifier)
      && LetThrough(cache, configured, p.value.tenant, first)
    case RefreshGrant(token, _) =>
      var p := Lookup(refresh, token);
      p.Some? && p.value.clientId == client.id && LetThroughTwice(cache, configured, p.value.tenant, first, second)
    case ServiceGrant(_) =>
      && form.secret != "" && ClientCredentials in client.grants
      && LetThroughTwice(cache, configured, client.tenant, first, second)
    case OtherGrant => false
  }

  predicate LetThroughTwice(cache: Cache, configured: bool, tenant: string, first: Look, second: Look) {
    && LetThrough(cache, configured, tenant, first)
    && LetThrough(After(cache, configured, tenant, first), configured, tenant, second)
  }

  /** One request at a time, a refresh that passes its first look is answered if the second look
      is below the deadline the first one found or set; past the deadline it is the registry's
      answer that decides, and only then can the token be lost. */
  lemma SecondLook(cache: Cache, tenant: string, first: Look, second: Look)
    requires LetThrough(cache, true, tenant, first)
    ensures var held := After(cache, true, tenant, first);
            && tenant in held && first.at < held[tenant].deadline
            && (LetThrough(held, true, tenant, second) <==> second.at < held[tenant].deadline || Verdict(second.answer))
  {
    AdmissionCovers(cache, true, tenant, first.at, first.answer, [], second.at, second.answer);
  }
}
