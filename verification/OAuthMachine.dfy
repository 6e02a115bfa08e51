/** The OAuth authority as a machine. A token request is authenticated, peeks, asks the tenant
    gate, consumes, asks the gate again, mints and reissues, and the steps of any number of
    requests interleave with each other and with everything else that happens: authorizations,
    consent being given and withdrawn, clients being changed, tokens expiring, time passing and
    tenants changing state. Fresh random tokens are part of an event; an event that offers a
    token that was seen before, or that is not enabled, changes nothing. */
module OAuthMachine {
  import opened Text
  import opened OAuth
  import GateRuns

  // ---------------------------------------------------------------- what is remembered

  datatype Basis = TrustedClient | RememberedConsent | ApprovedNow

  /** A step at which a user's authorization of a client was turned into a code. `at` is the
      step's number. */
  datatype Authorization = Authorization(
    client: Client, ident: Ident, redirectUri: string, scopes: seq<string>,
    challenge: string, how: ChallengeMethod, basis: Basis, at: nat)

  datatype ConsentEntry =
    | Remembered(key: ConsentKey, scopes: seq<string>, at: nat)
    | Withdrawn(key: ConsentKey)

  /** `origin` is the authorization a token descends from, `token` the code or refresh token
      that was presented, `root` the mint at which the lineage's code was redeemed. */
  datatype Source =
    | FromCode(origin: nat, token: string)
    | FromRefresh(origin: nat, token: string, root: nat)
    | ForService

  datatype Plan = Plan(source: Source, client: Client, subject: string, tenant: string, scope: string)

  /** An access token, the request it answered and the gate call that let it pass. */
  datatype Minted = Minted(plan: Plan, rid: nat, call: nat)

  datatype Next = ThenConsume | ThenMintForService | ThenMint(plan: Plan)

  datatype Outcome =
    | BadClient | UnsupportedGrant | ClientAuthRequired | GrantNotAllowed
    | UnknownRefresh | UnknownCode                   // nothing was consumed
    | WrongClient | WrongRedirect | PkceFailed       // the presented token was consumed
    | CodeNeedsClientAuth
    | RefusedBefore(call: nat) | RefusedAtMint(call: nat)
    | Served(mint: nat)

  datatype Request =
    | Received(client: Client)
    | AtGate(client: Client, tenant: string, call: Option<nat>, next: Next)
    | Cleared(client: Client)
    | Closed(outcome: Outcome)

  datatype State = State(
    clients: map<string, Client>,
    consent: Consent,
    codes: map<string, CodePayload>,
    refresh: map<string, RefreshPayload>,
    forms: map<nat, Form>,
    requests: map<nat, Request>,
    gate: GateRuns.State,
    calls: nat,                    // gate calls made so far
    log: seq<ConsentEntry>,
    auths: seq<Authorization>,
    born: map<string, nat>,        // every code and refresh token issued, and its origin
    taken: map<string, nat>,       // every code and refresh token consumed, and by which request
    minted: seq<Minted>,
    time: nat)

  datatype Event =
    | Authorize(p: AuthzParams, ident: Ident, consentUp: bool, random: string)
    | Decide(p: AuthzParams, ident: Ident, approved: bool, remember: bool, consentUp: bool, random: string)
    | Withdraw(key: ConsentKey)
    | PutClient(client: Client)
    | DropClient(id: string)
    | ExpireCode(token: string)
    | ExpireRefresh(token: string)
    | Submit(rid: nat, form: Form)
    | Advance(rid: nat, random: string)
    | Gate(e: GateRuns.Event)

  type Digest = string -> string

  function Init(configured: bool): State {
    State(map[], map[], map[], map[], map[], map[], GateRuns.Init(configured), 0, [], [], map[], map[], [], 0)
  }

  predicate Fresh(s: State, random: string) {
    random != "" && random !in s.born
  }

  // ---------------------------------------------------------------- authorize, prepare, decision

  function IssuedCode(s: State, p: AuthzParams, client: Client, scopes: seq<string>, ident: Ident, basis: Basis,
                      random: string): State {
    var origin := |s.auths|;
    s.(codes := s.codes[random := PayloadFor(p, client, scopes, ident, origin)],
       auths := s.auths + [Authorization(client, ident, p.redirectUri, scopes, p.challenge, p.how, basis, s.time)],
       born := s.born[random := origin])
  }

  function Remembering(s: State, client: Client, scopes: seq<string>, ident: Ident): State {
    s.(consent := ConsentGranted(s.consent, KeyFor(client, ident), scopes),
       log := s.log + [Remembered(KeyFor(client, ident), scopes, s.time)])
  }

  /** The direct endpoint and the consent screen's first step: a code is issued at once for a
      trusted client or a remembered consent, and nothing happens otherwise. */
  function Authorizing(s: State, p: AuthzParams, ident: Ident, consentUp: bool, random: string): State {
    var r := Resolve(s.clients, p);
    if r.Denied? || !Fresh(s, random) then s
    else if r.client.trusted then IssuedCode(s, p, r.client, r.scopes, ident, TrustedClient, random)
    else if consentUp && Has(s.consent, KeyFor(r.client, ident), r.scopes) then
      IssuedCode(s, p, r.client, r.scopes, ident, RememberedConsent, random)
    else s
  }

  function Deciding(s: State, p: AuthzParams, ident: Ident, approved: bool, remember: bool, consentUp: bool,
                    random: string): State {
    var r := Resolve(s.clients, p);
    if r.Denied? || !approved || !Fresh(s, random) then s
    else
      var s1 := if remember && consentUp then Remembering(s, r.client, r.scopes, ident) else s;
      IssuedCode(s1, p, r.client, r.scopes, ident, ApprovedNow, random)
  }

  function Withdrawing(s: State, key: ConsentKey): State {
    s.(consent := s.consent - {key}, log := s.log + [Withdrawn(key)])
  }

  // ---------------------------------------------------------------- the token endpoint

  function Moved(s: State, rid: nat, r: Request): State {
    s.(requests := s.requests[rid := r])
  }

  function Submitting(s: State, rid: nat, form: Form): State {
    if rid in s.forms then s
    else
      var auth := ClientAuth(s.clients, form.clientId, form.secret);
      s.(requests := s.requests[rid := if auth.None? then Closed(BadClient) else Received(auth.value.0)],
         forms := s.forms[rid := form])
  }

  /** What becomes of a request whose code was found and, by being looked up, consumed. */
  function Redeemed(digest: Digest, client: Client, form: Form, payload: CodePayload): Request
    requires form.grant.CodeGrant?
  {
    if payload.clientId != client.id then Closed(WrongClient)
    else if payload.redirectUri != form.grant.redirectUri then Closed(WrongRedirect)
    else if payload.challenge != "" && !VerifyPkce(digest, form.grant.verifier, payload.challenge, payload.how) then
      Closed(PkceFailed)
    else if payload.challenge == "" && form.secret == "" then Closed(CodeNeedsClientAuth)
    else AtGate(client, payload.tenant, None,
                ThenMint(Plan(FromCode(payload.origin, form.grant.code), client, payload.user, payload.tenant,
                              payload.scope)))
  }

  function TakeCode(s: State, rid: nat, code: string, r: Request): State {
    s.(requests := s.requests[rid := r], codes := s.codes - {code}, taken := s.taken[code := rid])
  }

  function TakeRefresh(s: State, rid: nat, token: string, r: Request): State {
    s.(requests := s.requests[rid := r], refresh := s.refresh - {token}, taken := s.taken[token := rid])
  }

  function ConsumingCode(digest: Digest, s: State, rid: nat, client: Client, form: Form): State
    requires form.grant.CodeGrant?
  {
    var code := form.grant.code;
    var payload := Lookup(s.codes, code);
    if payload.None? then Moved(s, rid, Closed(UnknownCode))
    else TakeCode(s, rid, code, Redeemed(digest, client, form, payload.value))
  }

  /** The look at a refresh token before anything is consumed. */
  function Peeking(s: State, rid: nat, client: Client, form: Form): State
    requires form.grant.RefreshGrant?
  {
    var payload := Lookup(s.refresh, form.grant.token);
    if payload.Some? && payload.value.clientId == client.id then
      Moved(s, rid, AtGate(client, payload.value.tenant, None, ThenConsume))
    else Moved(s, rid, Cleared(client))
  }

  function RotationPlan(client: Client, form: Form, payload: RefreshPayload): Plan
    requires form.grant.RefreshGrant?
  {
    Plan(FromRefresh(payload.origin, form.grant.token, payload.root), client, payload.user, payload.tenant,
         Narrow(payload.scope, form.grant.scope))
  }

  function Rotated(client: Client, form: Form, payload: RefreshPayload): Request
    requires form.grant.RefreshGrant?
  {
    if payload.clientId != client.id then Closed(WrongClient)
    else AtGate(client, payload.tenant, None, ThenMint(RotationPlan(client, form, payload)))
  }

  function ConsumingRefresh(s: State, rid: nat, client: Client, form: Form): State
    requires form.grant.RefreshGrant?
  {
    var token := form.grant.token;
    var payload := Lookup(s.refresh, token);
    if payload.None? then Moved(s, rid, Closed(UnknownRefresh))
    else TakeRefresh(s, rid, token, Rotated(client, form, payload.value))
  }

  function CheckedService(client: Client, form: Form): Request {
    if form.secret == "" then Closed(ClientAuthRequired)
    else if ClientCredentials !in client.grants then Closed(GrantNotAllowed)
    else AtGate(client, client.tenant, None, ThenMintForService)
  }

  function Dispatching(digest: Digest, s: State, rid: nat, client: Client, form: Form): State {
    match form.grant
    case CodeGrant(_, _, _) => ConsumingCode(digest, s, rid, client, form)
    case RefreshGrant(_, _) => Peeking(s, rid, client, form)
    case ServiceGrant(_) => Moved(s, rid, CheckedService(client, form))
    case OtherGrant => Moved(s, rid, Closed(UnsupportedGrant))
  }

  // ---------------------------------------------------------------- the gate, and minting behind it

  function Calling(s: State, rid: nat, client: Client, tenant: string, next: Next): State {
    s.(requests := s.requests[rid := AtGate(client, tenant, Some(s.calls), next)],
       gate := GateRuns.Step(s.gate, GateRuns.Begin(s.calls, tenant)),
       calls := s.calls + 1)
  }

  function ServicePlan(client: Client, form: Form): Plan
    requires form.grant.ServiceGrant?
  {
    Plan(ForService, client, client.id, client.tenant, ServiceScope(client, form.grant.scope))
  }

  predicate Reissues(plan: Plan) {
    !plan.source.ForService? && Offline(plan.scope)
  }

  function RootOf(source: Source, mint: nat): nat
    requires !source.ForService?
  {
    if source.FromCode? then mint else source.root
  }

  function NewRefresh(plan: Plan, mint: nat): RefreshPayload
    requires !plan.source.ForService?
  {
    RefreshPayload(plan.client.id, plan.subject, plan.tenant, plan.scope, plan.source.origin, RootOf(plan.source, mint))
  }

  function Minting(s: State, rid: nat, plan: Plan, call: nat, random: string): State {
    s.(requests := s.requests[rid := Closed(Served(|s.minted|))],
       minted := s.minted + [Minted(plan, rid, call)],
       refresh := if Reissues(plan) then s.refresh[random := NewRefresh(plan, |s.minted|)] else s.refresh,
       born := if Reissues(plan) then s.born[random := plan.source.origin] else s.born)
  }

  function Passing(s: State, rid: nat, r: Request, form: Form, call: nat, random: string): State
    requires r.AtGate?
  {
    match r.next
    case ThenConsume => Moved(s, rid, Cleared(r.client))
    case ThenMintForService =>
      if form.grant.ServiceGrant? then
        Moved(s, rid, AtGate(r.client, r.tenant, None, ThenMint(ServicePlan(r.client, form))))
      else s
    case ThenMint(plan) => if Reissues(plan) && !Fresh(s, random) then s else Minting(s, rid, plan, call, random)
  }

  function Refusal(next: Next, call: nat): Request {
    if next.ThenMint? then Closed(RefusedAtMint(call)) else Closed(RefusedBefore(call))
  }

  function Gating(s: State, rid: nat, r: Request, form: Form, random: string): State
    requires r.AtGate?
  {
    if r.call.None? then Calling(s, rid, r.client, r.tenant, r.next)
    else if r.call.value !in s.gate.done then s
    else if s.gate.done[r.call.value].reply.admits then Passing(s, rid, r, form, r.call.value, random)
    else Moved(s, rid, Refusal(r.next, r.call.value))
  }

  function Advancing(digest: Digest, s: State, rid: nat, random: string): State {
    if rid !in s.requests || rid !in s.forms then s
    else
      var form := s.forms[rid];
      match s.requests[rid]
      case Received(client) => Dispatching(digest, s, rid, client, form)
      case AtGate(_, _, _, _) => Gating(s, rid, s.requests[rid], form, random)
      case Cleared(client) => if form.grant.RefreshGrant? then ConsumingRefresh(s, rid, client, form) else s
      case Closed(_) => s
  }

  function GateMoving(s: State, e: GateRuns.Event): State {
    if e.Begin? then s else s.(gate := GateRuns.Step(s.gate, e))
  }

  // ---------------------------------------------------------------- runs

  function Effect(digest: Digest, s: State, e: Event): State {
    match e
    case Authorize(p, ident, consentUp, random) => Authorizing(s, p, ident, consentUp, random)
    case Decide(p, ident, approved, remember, consentUp, random) =>
      Deciding(s, p, ident, approved, remember, consentUp, random)
    case Withdraw(key) => Withdrawing(s, key)
    case PutClient(c) => s.(clients := s.clients[c.id := c])
    case DropClient(id) => s.(clients := s.clients - {id})
    case ExpireCode(token) => s.(codes := s.codes - {token})
    case ExpireRefresh(token) => s.(refresh := s.refresh - {token})
    case Submit(rid, form) => Submitting(s, rid, form)
    case Advance(rid, random) => Advancing(digest, s, rid, random)
    case Gate(ge) => GateMoving(s, ge)
  }

  function Step(digest: Digest, s: State, e: Event): State {
    Effect(digest, s, e).(time := s.time + 1)
  }

  function RunFrom(digest: Digest, s: State, es: seq<Event>): State {
    if es == [] then s else Step(digest, RunFrom(digest, s, es[..|es| - 1]), es[|es| - 1])
  }

  function Run(digest: Digest, configured: bool, es: seq<Event>): State {
    RunFrom(digest, Init(configured), es)
  }
}
