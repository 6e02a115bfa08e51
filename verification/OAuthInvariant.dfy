/** What every reachable state of the OAuth machine satisfies, and that every step keeps it. */
module OAuthInvariant {
  import opened Text
  import opened OAuth
  import opened OAuthMachine
  import GateRuns

  // ---------------------------------------------------------------- consent, as the records tell it

  /** The scopes a user has approved with "remember" for a client since last withdrawing it. */
  function Standing(log: seq<ConsentEntry>, key: ConsentKey): set<string> {
    if log == [] then {}
    else
      var earlier := Standing(log[..|log| - 1], key);
      match log[|log| - 1]
      case Remembered(k, scopes, _) => if k == key then Norm(scopes) + earlier else earlier
      case Withdrawn(k) => if k == key then {} else earlier
  }

  function Stored(consent: Consent, key: ConsentKey): set<string> {
    if key in consent then consent[key] else {}
  }

  ghost predicate ConsentOk(consent: Consent, log: seq<ConsentEntry>) {
    forall key :: Stored(consent, key) == Standing(log, key)
  }

  predicate ClientsOk(clients: map<string, Client>) {
    forall id :: id in clients ==> clients[id].id == id
  }

  // ---------------------------------------------------------------- authorizations and stored tokens

  predicate AuthOk(a: Authorization) {
    && a.scopes != [] && Words(a.scopes) && Subset(a.scopes, a.client.scopes)
    && a.redirectUri in a.client.redirectUris
    && (a.client.authMethod == NoSecret ==> a.challenge != "")
    && (a.challenge != "" ==> a.how == S256 || a.how == Plain)
    && (a.basis == TrustedClient ==> a.client.trusted)
  }

  predicate AuthsOk(auths: seq<Authorization>) {
    forall i :: 0 <= i < |auths| ==> AuthOk(auths[i])
  }

  predicate Issued(s: State, token: string, origin: nat) {
    token != "" && token in s.born && s.born[token] == origin && origin < |s.auths|
  }

  /** A stored code carries exactly what was authorized. */
  predicate CodeOk(s: State, token: string, p: CodePayload) {
    && Issued(s, token, p.origin) && token !in s.taken
    && var a := s.auths[p.origin];
       p == CodePayload(a.client.id, a.ident.user, a.ident.tenant, a.redirectUri, Join(a.scopes), a.challenge, a.how,
                        p.origin)
  }

  predicate ScopeWithin(scope: string, words: seq<string>) {
    Split(scope) != [] && Subset(Split(scope), words)
  }

  predicate RootOk(s: State, root: nat, origin: nat) {
    && root < |s.minted|
    && s.minted[root].plan.source.FromCode? && s.minted[root].plan.source.origin == origin
  }

  predicate RefreshOk(s: State, token: string, p: RefreshPayload) {
    && Issued(s, token, p.origin) && token !in s.taken
    && RootOk(s, p.root, p.origin)
    && OFFLINE_ACCESS in Split(p.scope)
    && var a := s.auths[p.origin];
       && p.clientId == a.client.id && p.user == a.ident.user && p.tenant == a.ident.tenant
       && ScopeWithin(p.scope, a.scopes)
  }

  predicate CodesOk(s: State) {
    forall token :: token in s.codes ==> CodeOk(s, token, s.codes[token])
  }

  predicate RefreshesOk(s: State) {
    forall token :: token in s.refresh ==> RefreshOk(s, token, s.refresh[token])
  }

  // ---------------------------------------------------------------- requests and access tokens

  predicate Authenticated(form: Form, client: Client) {
    client.id == form.clientId && (form.secret != "" ==> client.secret == Some(form.secret))
  }

  predicate Presented(s: State, rid: nat, token: string, origin: nat) {
    token in s.taken && s.taken[token] == rid && Issued(s, token, origin)
  }

  predicate ForUser(plan: Plan, a: Authorization) {
    plan.client.id == a.client.id && plan.subject == a.ident.user && plan.tenant == a.ident.tenant
  }

  /** The code was redeemed for the redirect URI it was issued to, by whoever knows the
      verifier of its challenge or, without a challenge, the client's secret. */
  predicate RedeemedBy(digest: Digest, form: Form, code: string, a: Authorization) {
    && form.grant.CodeGrant? && form.grant.code == code
    && form.grant.redirectUri == a.redirectUri
    && (if a.challenge != "" then VerifyPkce(digest, form.grant.verifier, a.challenge, a.how) else form.secret != "")
  }

  predicate PlanOk(digest: Digest, s: State, rid: nat, plan: Plan) {
    && rid in s.forms && Authenticated(s.forms[rid], plan.client)
    && var form := s.forms[rid];
       match plan.source
       case FromCode(origin, token) =>
         && Presented(s, rid, token, origin)
         && ForUser(plan, s.auths[origin])
         && RedeemedBy(digest, form, token, s.auths[origin])
         && plan.scope == Join(s.auths[origin].scopes)
       case FromRefresh(origin, token, root) =>
         && Presented(s, rid, token, origin)
         && ForUser(plan, s.auths[origin])
         && form.grant.RefreshGrant? && form.grant.token == token
         && RootOk(s, root, origin)
         && ScopeWithin(plan.scope, s.auths[origin].scopes)
       case ForService =>
         && form.grant.ServiceGrant? && form.secret != "" && ClientCredentials in plan.client.grants
         && plan.subject == plan.client.id && plan.tenant == plan.client.tenant
         && plan.scope == ServiceScope(plan.client, form.grant.scope)
  }

  function TenantOf(gate: GateRuns.State, call: nat): Option<string> {
    if call in gate.done then Some(gate.done[call].tenant)
    else if call in gate.pending then Some(gate.pending[call].tenant)
    else None
  }

  predicate CallOk(s: State, tenant: string, call: nat) {
    call < s.calls && TenantOf(s.gate, call) == Some(tenant)
  }

  predicate NextOk(digest: Digest, s: State, rid: nat, client: Client, tenant: string, next: Next)
    requires rid in s.forms
  {
    match next
    case ThenConsume => s.forms[rid].grant.RefreshGrant?
    case ThenMintForService =>
      && s.forms[rid].grant.ServiceGrant? && s.forms[rid].secret != "" && ClientCredentials in client.grants
      && tenant == client.tenant
    case ThenMint(plan) => plan.client == client && plan.tenant == tenant && PlanOk(digest, s, rid, plan)
  }

  /** The code or refresh token a request presents. */
  function TokenIn(form: Form): Option<string> {
    match form.grant
    case CodeGrant(code, _, _) => Some(code)
    case RefreshGrant(token, _) => Some(token)
    case _ => None
  }

  /** The tenant of the authorization a token descends from. */
  predicate OfTenant(s: State, token: string, tenant: string) {
    token in s.born && s.born[token] < |s.auths| && s.auths[s.born[token]].ident.tenant == tenant
  }

  /** A refusal is that of the gate; one at the mint is for the tenant of the presented token. */
  predicate OutcomeOk(s: State, rid: nat, o: Outcome)
    requires rid in s.forms
  {
    && (o.Served? ==> o.mint < |s.minted| && s.minted[o.mint].rid == rid)
    && (o.RefusedBefore? || o.RefusedAtMint? ==> o.call in s.gate.done && !s.gate.done[o.call].reply.admits)
    && (o.RefusedAtMint? && TokenIn(s.forms[rid]).Some? ==>
          OfTenant(s, TokenIn(s.forms[rid]).value, s.gate.done[o.call].tenant))
  }

  predicate RequestOk(digest: Digest, s: State, rid: nat, r: Request) {
    && rid in s.forms
    && match r
       case Received(client) => Authenticated(s.forms[rid], client)
       case AtGate(client, tenant, call, next) =>
         && Authenticated(s.forms[rid], client)
         && (call.Some? ==> CallOk(s, tenant, call.value))
         && NextOk(digest, s, rid, client, tenant, next)
       case Cleared(client) => Authenticated(s.forms[rid], client) && s.forms[rid].grant.RefreshGrant?
       case Closed(outcome) => OutcomeOk(s, rid, outcome)
  }

  predicate RequestsOk(digest: Digest, s: State) {
    forall rid :: rid in s.requests ==> RequestOk(digest, s, rid, s.requests[rid])
  }

  /** The stages of a request after it has consumed what was presented. */
  predicate Consumed(r: Request) {
    match r
    case AtGate(_, _, _, next) => next.ThenMint?
    case Closed(o) =>
      || o.WrongClient? || o.WrongRedirect? || o.PkceFailed? || o.CodeNeedsClientAuth?
      || o.RefusedAtMint? || o.Served?
    case _ => false
  }

  predicate TakenOk(s: State) {
    forall token :: token in s.taken ==>
          token in s.born && s.taken[token] in s.requests && Consumed(s.requests[s.taken[token]])
  }

  predicate MintOk(digest: Digest, s: State, i: nat, m: Minted) {
    && PlanOk(digest, s, m.rid, m.plan)
    && m.rid in s.requests && s.requests[m.rid] == Closed(Served(i))
    && m.call in s.gate.done && s.gate.done[m.call].tenant == m.plan.tenant && s.gate.done[m.call].reply.admits
  }

  predicate MintsOk(digest: Digest, s: State) {
    forall i :: 0 <= i < |s.minted| ==> MintOk(digest, s, i, s.minted[i])
  }

  ghost predicate GateOk(gate: GateRuns.State, calls: nat) {
    && GateRuns.Inv(gate)
    && (forall id :: id in gate.pending ==> id < calls)
    && (forall id :: id in gate.done ==> id < calls)
  }

  // ---------------------------------------------------------------- lineages

  /** Where the right to one more access token can be: in a code, in a refresh token, or with
      a request that has consumed one and not yet minted. */
  datatype Holder = LiveCode(token: string) | LiveRefresh(token: string) | InHand(rid: nat)

  datatype Held = Held(origin: nat, words: seq<string>)

  function InRequest(r: Request): Option<Held> {
    if r.AtGate? && r.next.ThenMint? && !r.next.plan.source.ForService? then
      Some(Held(r.next.plan.source.origin, Split(r.next.plan.scope)))
    else None
  }

  /** What a holder holds: the authorization it descends from, and the scopes. */
  function HeldBy(s: State, h: Holder): Option<Held> {
    match h
    case LiveCode(token) =>
      if token in s.codes then Some(Held(s.codes[token].origin, Split(s.codes[token].scope))) else None
    case LiveRefresh(token) =>
      if token in s.refresh then Some(Held(s.refresh[token].origin, Split(s.refresh[token].scope))) else None
    case InHand(rid) =>
      if rid in s.requests then InRequest(s.requests[rid]) else None
  }

  predicate OfLineage(m: Minted, origin: nat) {
    !m.plan.source.ForService? && m.plan.source.origin == origin
  }

  ghost predicate OneHolder(s: State) {
    forall g, h | HeldBy(s, g).Some? && HeldBy(s, h).Some? ::
      HeldBy(s, g).value.origin == HeldBy(s, h).value.origin ==> g == h
  }

  /** A mint that some later token of its lineage may still follow. */
  predicate Precedes(m: Minted, words: seq<string>) {
    Subset(words, Split(m.plan.scope)) && OFFLINE_ACCESS in Split(m.plan.scope)
  }

  ghost predicate HoldersFollow(s: State) {
    forall h :: HeldBy(s, h).Some? ==>
      && HeldBy(s, h).value.origin < |s.auths|
      && forall i | 0 <= i < |s.minted| ::
           OfLineage(s.minted[i], HeldBy(s, h).value.origin) ==> Precedes(s.minted[i], HeldBy(s, h).value.words)
  }

  predicate MintsFollow(s: State) {
    forall i, j | 0 <= i < j < |s.minted| && !s.minted[j].plan.source.ForService? ::
      OfLineage(s.minted[i], s.minted[j].plan.source.origin) ==>
        Precedes(s.minted[i], Split(s.minted[j].plan.scope))
  }

  ghost predicate LineageOk(s: State) {
    OneHolder(s) && HoldersFollow(s) && MintsFollow(s)
  }

  ghost predicate Inv(digest: Digest, s: State) {
    && ClientsOk(s.clients) && ConsentOk(s.consent, s.log) && AuthsOk(s.auths)
    && CodesOk(s) && RefreshesOk(s)
    && RequestsOk(digest, s) && TakenOk(s) && MintsOk(digest, s)
    && LineageOk(s) && GateOk(s.gate, s.calls)
  }

  lemma InitInv(digest: Digest, configured: bool)
    ensures Inv(digest, Init(configured))
  {
    GateRuns.InitInv(configured);
    hide GateRuns.Inv;
  }

  // ---------------------------------------------------------------- what every step leaves alone

  /** Records only grow, and a gate call never changes tenant or reply. */
  ghost predicate Extends(s: State, t: State) {
    && s.auths <= t.auths && s.minted <= t.minted && s.calls <= t.calls
    && (forall k :: k in s.born ==> k in t.born && t.born[k] == s.born[k])
    && (forall k :: k in s.taken ==> k in t.taken && t.taken[k] == s.taken[k])
    && (forall k :: k in s.forms ==> k in t.forms && t.forms[k] == s.forms[k])
    && (forall k :: k in s.gate.done ==> k in t.gate.done && t.gate.done[k] == s.gate.done[k])
    && (forall k :: TenantOf(s.gate, k).Some? ==> TenantOf(t.gate, k) == TenantOf(s.gate, k))
  }

  lemma CodeStaysOk(s: State, t: State, token: string, p: CodePayload)
    requires CodeOk(s, token, p) && Extends(s, t) && token !in t.taken
    ensures CodeOk(t, token, p)
  {
  }

  lemma RefreshStaysOk(s: State, t: State, token: string, p: RefreshPayload)
    requires RefreshOk(s, token, p) && Extends(s, t) && token !in t.taken
    ensures RefreshOk(t, token, p)
  {
  }

  lemma PlanStaysOk(digest: Digest, s: State, t: State, rid: nat, plan: Plan)
    requires PlanOk(digest, s, rid, plan) && Extends(s, t)
    ensures PlanOk(digest, t, rid, plan)
  {
    hide RedeemedBy, ScopeWithin, ForUser, Authenticated, TenantOf;
  }

  lemma RequestStaysOk(digest: Digest, s: State, t: State, rid: nat, r: Request)
    requires RequestOk(digest, s, rid, r) && Extends(s, t)
    ensures RequestOk(digest, t, rid, r)
  {
    hide PlanOk, Authenticated, TenantOf;
    if r.AtGate? && r.next.ThenMint? { PlanStaysOk(digest, s, t, rid, r.next.plan); }
  }

  lemma MintStaysOk(digest: Digest, s: State, t: State, i: nat, m: Minted)
    requires MintOk(digest, s, i, m) && Extends(s, t)
    requires m.rid in t.requests && t.requests[m.rid] == s.requests[m.rid]
    ensures MintOk(digest, t, i, m)
  {
    hide PlanOk, TenantOf;
    PlanStaysOk(digest, s, t, m.rid, m.plan);
  }
}
