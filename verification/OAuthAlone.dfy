/** A request that the machine runs without interleaving does what the endpoint does: a code is
    issued, or tokens are served, exactly where the endpoint answers so, and the stores it leaves
    are the same. */
module OAuthAlone {
  import opened Text
  import opened OAuth
  import opened OAuthMachine
  import opened OAuthLoss
  import AuthorizeEndpoint
  import GateRuns
  import TenantGate
  import TokenEndpoint

  // ---------------------------------------------------------------- the authorization endpoints

  lemma AuthorizeAlone(digest: Digest, s: State, p: AuthzParams, ident: Ident, consentUp: bool, random: string)
    requires Fresh(s, random)
    ensures var t := Step(digest, s, Authorize(p, ident, consentUp, random));
            && t.codes == (if AuthorizeEndpoint.Unasked(s.clients, s.consent, consentUp, p, ident)
                           then s.codes[random := AuthorizeEndpoint.NewPayload(s.clients, p, ident, |s.auths|)]
                           else s.codes)
            && t.refresh == s.refresh && t.consent == s.consent
  {
    hide Authorizing, AuthorizeEndpoint.Unasked, AuthorizeEndpoint.NewPayload;
    Authorizes(s, p, ident, consentUp, random);
  }

  lemma Authorizes(s: State, p: AuthzParams, ident: Ident, consentUp: bool, random: string)
    requires Fresh(s, random)
    ensures var t := Authorizing(s, p, ident, consentUp, random);
            && t.codes == (if AuthorizeEndpoint.Unasked(s.clients, s.consent, consentUp, p, ident)
                           then s.codes[random := AuthorizeEndpoint.NewPayload(s.clients, p, ident, |s.auths|)]
                           else s.codes)
            && t.refresh == s.refresh && t.consent == s.consent
  {
    hide Resolve, Has, PayloadFor;
  }

  lemma DecisionAlone(digest: Digest, s: State, p: AuthzParams, ident: Ident, approved: bool, remember: bool,
                      consentUp: bool, random: string)
    requires Fresh(s, random)
    ensures var t := Step(digest, s, Decide(p, ident, approved, remember, consentUp, random));
            var r := Resolve(s.clients, p);
            var issued := approved && r.Granted?;
            && t.codes == (if issued
                           then s.codes[random := AuthorizeEndpoint.NewPayload(s.clients, p, ident, |s.auths|)]
                           else s.codes)
            && t.consent == (if issued && remember && consentUp
                             then ConsentGranted(s.consent, KeyFor(r.client, ident), r.scopes)
                             else s.consent)
            && t.refresh == s.refresh
  {
    hide Deciding, Resolve, ConsentGranted, AuthorizeEndpoint.NewPayload;
    Decides(s, p, ident, approved, remember, consentUp, random);
  }

  lemma Decides(s: State, p: AuthzParams, ident: Ident, approved: bool, remember: bool, consentUp: bool, random: string)
    requires Fresh(s, random)
    ensures var t := Deciding(s, p, ident, approved, remember, consentUp, random);
            var r := Resolve(s.clients, p);
            var issued := approved && r.Granted?;
            && t.codes == (if issued
                           then s.codes[random := AuthorizeEndpoint.NewPayload(s.clients, p, ident, |s.auths|)]
                           else s.codes)
            && t.consent == (if issued && remember && consentUp
                             then ConsentGranted(s.consent, KeyFor(r.client, ident), r.scopes)
                             else s.consent)
            && t.refresh == s.refresh
  {
    hide Resolve, ConsentGranted, PayloadFor;
  }

  // ---------------------------------------------------------------- the gate

  /** A look at the gate now. */
  function LookNow(s: State, tenant: string): TokenEndpoint.Look {
    TokenEndpoint.Look(s.gate.now, GateRuns.Registered(s.gate.registry, tenant))
  }

  predicate LetThrough(s: State, tenant: string) {
    TokenEndpoint.LetThrough(s.gate.cache, s.gate.configured, tenant, LookNow(s, tenant))
  }

  function CacheAfter(s: State, tenant: string): TenantGate.Cache {
    TokenEndpoint.After(s.gate.cache, s.gate.configured, tenant, LookNow(s, tenant))
  }

  predicate NumbersBelow(gate: GateRuns.State, calls: nat) {
    (forall id :: id in gate.pending ==> id < calls) && (forall id :: id in gate.done ==> id < calls)
  }

  /** Time has not passed and the registry has not changed. */
  predicate SameMoment(s: State, t: State) {
    t.gate.now == s.gate.now && t.gate.registry == s.gate.registry && t.gate.configured == s.gate.configured
  }

  // ---------------------------------------------------------------- steps of one request

  lemma Submits(digest: Digest, s: State, rid: nat, form: Form, client: Client)
    requires rid !in s.forms && ClientAuth(s.clients, form.clientId, form.secret).Some?
    requires client == ClientAuth(s.clients, form.clientId, form.secret).value.0
    ensures Step(digest, s, Submit(rid, form)) ==
              s.(requests := s.requests[rid := Received(client)], forms := s.forms[rid := form], time := s.time + 1)
  {
    hide ClientAuth;
  }

  /** A gate call alone answers what the gate would answer sequentially. */
  lemma Called(digest: Digest, s: State, rid: nat, client: Client, tenant: string, next: Next)
    requires rid in s.forms && rid in s.requests && s.requests[rid] == AtGate(client, tenant, None, next)
    requires NumbersBelow(s.gate, s.calls)
    ensures var n := s.calls;
            var t := RunFrom(digest, s, Calls(rid, n));
            && t == s.(requests := s.requests[rid := AtGate(client, tenant, Some(n), next)], calls := n + 1,
                       time := s.time + 4, gate := t.gate)
            && SameMoment(s, t) && NumbersBelow(t.gate, t.calls) && t.gate.cache == CacheAfter(s, tenant)
            && n in t.gate.done && t.gate.done[n].reply.admits == LetThrough(s, tenant)
  {
    hide RunFrom, GateRuns.RunFrom, GateRuns.Registered, TenantGate.GateCall;
    CallsAlone(digest, s, rid, client, tenant, next);
    GateRuns.GateAlone(s.gate, s.calls, tenant);
  }

  /** Nothing more happens to a request that is closed, and gate calls that are not under way do
      not move. */
  predicate Moot(s: State, rid: nat, e: Event) {
    match e
    case Advance(r, _) => r == rid
    case Gate(ge) =>
      || (ge.Probe? && ge.id !in s.gate.pending)
      || (ge.Ask? && ge.id !in s.gate.pending)
      || (ge.Store? && ge.id !in s.gate.pending)
    case _ => false
  }

  lemma MootAdvance(digest: Digest, s: State, rid: nat, random: string)
    requires rid in s.requests && s.requests[rid].Closed?
    ensures Advancing(digest, s, rid, random) == s
  {
  }

  lemma MootGate(s: State, e: GateRuns.Event)
    requires (e.Probe? || e.Ask? || e.Store?) && e.id !in s.gate.pending
    ensures GateMoving(s, e) == s
  {
    hide GateRuns.Probed, GateRuns.Asked, GateRuns.Stores;
  }

  lemma MootStep(digest: Digest, s: State, rid: nat, e: Event)
    requires rid in s.requests && s.requests[rid].Closed? && Moot(s, rid, e)
    ensures Step(digest, s, e) == s.(time := s.time + 1)
  {
    hide Advancing, GateMoving;
    match e
    case Advance(_, random) => MootAdvance(digest, s, rid, random);
    case Gate(ge) => MootGate(s, ge);
    case _ =>
  }

  lemma {:induction false} ClosedStays(digest: Digest, s: State, rid: nat, es: seq<Event>)
    requires rid in s.requests && s.requests[rid].Closed? && forall e :: e in es ==> Moot(s, rid, e)
    ensures RunFrom(digest, s, es) == s.(time := s.time + |es|)
  {
    hide Step;
    if es != [] {
      assert es[|es| - 1] in es;
      ClosedStays(digest, s, rid, es[..|es| - 1]);
      MootStep(digest, RunFrom(digest, s, es[..|es| - 1]), rid, es[|es| - 1]);
    }
  }

  lemma Refuses(digest: Digest, s: State, rid: nat, random: string)
    requires rid in s.forms && rid in s.requests && s.requests[rid].AtGate? && s.requests[rid].call.Some?
    requires s.requests[rid].call.value in s.gate.done && !s.gate.done[s.requests[rid].call.value].reply.admits
    ensures Step(digest, s, Advance(rid, random)) ==
              s.(requests := s.requests[rid := Refusal(s.requests[rid].next, s.requests[rid].call.value)],
                 time := s.time + 1)
  {
    hide Refusal;
  }

  lemma Mints(digest: Digest, s: State, rid: nat, plan: Plan, call: nat, random: string)
    requires rid in s.forms && rid in s.requests && s.requests[rid].AtGate? && s.requests[rid].next == ThenMint(plan)
    requires s.requests[rid].call == Some(call) && call in s.gate.done && s.gate.done[call].reply.admits
    requires Reissues(plan) ==> Fresh(s, random)
    ensures Step(digest, s, Advance(rid, random)) == Minting(s, rid, plan, call, random).(time := s.time + 1)
  {
    hide Minting, Reissues, Fresh;
  }

  predicate Served(t: State, rid: nat) {
    rid in t.requests && t.requests[rid].Closed? && t.requests[rid].outcome.Served?
  }

  function RefreshAfter(s: State, plan: Plan, random: string): map<string, RefreshPayload> {
    if Reissues(plan) then s.refresh[random := NewRefresh(plan, |s.minted|)] else s.refresh
  }

  /** From a plan to its end: minted if the look lets it through, refused if not. */
  lemma LastLook(digest: Digest, s: State, rid: nat, client: Client, plan: Plan, random: string)
    requires rid in s.forms && rid in s.requests && s.requests[rid] == AtGate(client, plan.tenant, None, ThenMint(plan))
    requires NumbersBelow(s.gate, s.calls) && Fresh(s, random)
    ensures var t := RunFrom(digest, s, Calls(rid, s.calls) + [Advance(rid, random)]);
            && t.codes == s.codes && t.gate.cache == CacheAfter(s, plan.tenant)
            && (Served(t, rid) <==> LetThrough(s, plan.tenant))
            && t.refresh == (if LetThrough(s, plan.tenant) then RefreshAfter(s, plan, random) else s.refresh)
            && t.minted == if LetThrough(s, plan.tenant) then s.minted + [Minted(plan, rid, s.calls)] else s.minted
  {
    hide RunFrom, Step, Calls, LetThrough, CacheAfter;
    var n := s.calls;
    Called(digest, s, rid, client, plan.tenant, ThenMint(plan));
    var u := RunFrom(digest, s, Calls(rid, n));
    RunFromAppend(digest, s, Calls(rid, n), [Advance(rid, random)]);
    OneEvent(digest, u, Advance(rid, random));
    if LetThrough(s, plan.tenant) {
      Mints(digest, u, rid, plan, n, random);
    } else {
      Refuses(digest, u, rid, random);
    }
  }

  /** The rest of the schedule does nothing to a request that is closed. */
  lemma NothingLeft(digest: Digest, s: State, rid: nat, random: string)
    requires rid in s.requests && s.requests[rid].Closed? && !s.requests[rid].outcome.Served?
    requires NumbersBelow(s.gate, s.calls)
    ensures var t := RunFrom(digest, s, Calls(rid, s.calls) + [Advance(rid, random)]);
            && !Served(t, rid) && t.codes == s.codes && t.refresh == s.refresh && t.gate == s.gate
            && t.minted == s.minted
            && t == s.(time := t.time)
  {
    hide RunFrom;
    ClosedStays(digest, s, rid, Calls(rid, s.calls) + [Advance(rid, random)]);
  }

  // ---------------------------------------------------------------- the three grants

  /** The moment a request arrives: its number is new, its client known, no time passes. */
  predicate Arrives(s: State, rid: nat, form: Form, random: string) {
    && rid !in s.forms && rid !in s.requests && NumbersBelow(s.gate, s.calls) && Fresh(s, random)
    && ClientAuth(s.clients, form.clientId, form.secret).Some?
  }

  function By(s: State, form: Form): Client
    requires ClientAuth(s.clients, form.clientId, form.secret).Some?
  {
    ClientAuth(s.clients, form.clientId, form.secret).value.0
  }

  predicate Deserved(digest: Digest, s: State, form: Form, tenant: string)
    requires ClientAuth(s.clients, form.clientId, form.secret).Some?
  {
    TokenEndpoint.Deserved(digest, s.codes, s.refresh, s.gate.cache, s.gate.configured, By(s, form), form,
                           LookNow(s, tenant), LookNow(s, tenant))
  }

  lemma RedeemedIff(digest: Digest, client: Client, form: Form, p: CodePayload)
    requires form.grant.CodeGrant?
    ensures var r := Redeemed(digest, client, form, p);
            var good := GoodCode(digest, p, client, form.secret != "", form.grant.redirectUri, form.grant.verifier);
            && (if good then r == AtGate(client, p.tenant, None, ThenMint(CodePlan(client, form, p)))
                else r.Closed? && !r.outcome.Served?)
            && (r == Closed(WrongClient) <==> p.clientId != client.id)
            && (r == Closed(WrongRedirect) <==> p.clientId == client.id && p.redirectUri != form.grant.redirectUri)
            && (r == Closed(PkceFailed) ==> p.challenge != "")
            && (r == Closed(CodeNeedsClientAuth) ==> p.challenge == "" && form.secret == "")
  {
    hide VerifyPkce;
  }

  function CodePlan(client: Client, form: Form, p: CodePayload): Plan
    requires form.grant.CodeGrant?
  {
    Plan(FromCode(p.origin, form.grant.code), client, p.user, p.tenant, p.scope)
  }

  lemma Consumes(digest: Digest, s: State, rid: nat, client: Client)
    requires rid in s.forms && s.forms[rid].grant.CodeGrant? && rid in s.requests && s.requests[rid] == Received(client)
    ensures Step(digest, s, Advance(rid, "")) ==
          ConsumingCode(digest, s, rid, client, s.forms[rid]).(time := s.time + 1)
  {
    hide ConsumingCode;
  }

  function CodeSchedule(rid: nat, form: Form, n: nat, random: string): seq<Event> {
    [Submit(rid, form), Advance(rid, "")] + (Calls(rid, n) + [Advance(rid, random)])
  }

  predicate SameButFor(s: State, u: State, rid: nat) {
    && u.refresh == s.refresh && u.minted == s.minted && u.born == s.born
    && u.gate == s.gate && u.calls == s.calls && u.forms == s.forms && rid in u.requests
  }

  lemma MovedLeaves(s: State, rid: nat, r: Request)
    ensures var u := Moved(s, rid, r); SameButFor(s, u, rid) && u.codes == s.codes && u.requests[rid] == r
  {
  }

  lemma TakingLeaves(s: State, rid: nat, code: string, r: Request)
    ensures var u := TakeCode(s, rid, code, r);
            SameButFor(s, u, rid) && u.codes == s.codes - {code} && u.requests[rid] == r
  {
  }

  lemma ConsumingLeaves(digest: Digest, s: State, rid: nat, client: Client, form: Form)
    requires form.grant.CodeGrant?
    ensures var u := ConsumingCode(digest, s, rid, client, form);
            var p := Lookup(s.codes, form.grant.code);
            && u.codes == (if p.Some? then s.codes - {form.grant.code} else s.codes) && SameButFor(s, u, rid)
            && u.requests[rid] == if p.Some? then Redeemed(digest, client, form, p.value) else Closed(UnknownCode)
  {
    hide Redeemed, Moved, TakeCode, Lookup;
    var p := Lookup(s.codes, form.grant.code);
    if p.Some? {
      TakingLeaves(s, rid, form.grant.code, Redeemed(digest, client, form, p.value));
    } else {
      MovedLeaves(s, rid, Closed(UnknownCode));
    }
  }

  /** The first half: the code is consumed, and the request has a plan exactly if it was good. */
  lemma CodeRedeemed(digest: Digest, s: State, rid: nat, form: Form, random: string)
    requires Arrives(s, rid, form, random) && form.grant.CodeGrant?
    ensures var u := RunFrom(digest, s, [Submit(rid, form), Advance(rid, "")]);
            var p := Lookup(s.codes, form.grant.code);
            var client, g := By(s, form), form.grant;
            && u.codes == (if p.Some? then s.codes - {g.code} else s.codes)
            && u.refresh == s.refresh && u.minted == s.minted && u.born == s.born
            && u.gate == s.gate && u.calls == s.calls && rid in u.forms && u.forms[rid] == form && rid in u.requests
            && if p.Some? && GoodCode(digest, p.value, client, form.secret != "", g.redirectUri, g.verifier)
               then u.requests[rid] == AtGate(client, p.value.tenant, None, ThenMint(CodePlan(client, form, p.value)))
               else u.requests[rid].Closed? && !u.requests[rid].outcome.Served?
  {
    hide RunFrom, Step, ClientAuth, Redeemed, GoodCode, ConsumingCode;
    var client, p := By(s, form), Lookup(s.codes, form.grant.code);
    TwoEvents(digest, s, Submit(rid, form), Advance(rid, ""));
    Submits(digest, s, rid, form, client);
    var s1 := Step(digest, s, Submit(rid, form));
    Consumes(digest, s1, rid, client);
    ConsumingLeaves(digest, s1, rid, client, form);
    if p.Some? { RedeemedIff(digest, client, form, p.value); }
  }

  /** A code request alone: served exactly where the endpoint answers with tokens, the code gone
      either way, and the refresh token of the endpoint stored. */
  lemma CodeAlone(digest: Digest, s: State, rid: nat, form: Form, random: string)
    requires Arrives(s, rid, form, random) && form.grant.CodeGrant?
    ensures var t := RunFrom(digest, s, CodeSchedule(rid, form, s.calls, random));
            var p := Lookup(s.codes, form.grant.code);
            && (Served(t, rid) <==> Deserved(digest, s, form, if p.Some? then p.value.tenant else ""))
            && t.codes == (if p.Some? then s.codes - {form.grant.code} else s.codes)
            && t.refresh == if Served(t, rid) && Offline(p.value.scope)
                            then s.refresh[random := RefreshPayload(By(s, form).id, p.value.user, p.value.tenant,
                                                                    p.value.scope, p.value.origin, |s.minted|)]
                            else s.refresh
  {
    hide RunFrom, Calls, LetThrough, CacheAfter, ClientAuth, GoodCode, Deserved, Offline, Served;
    var client, p := By(s, form), Lookup(s.codes, form.grant.code);
    var tenant := if p.Some? then p.value.tenant else "";
    var first, rest := [Submit(rid, form), Advance(rid, "")], Calls(rid, s.calls) + [Advance(rid, random)];
    RunFromAppend(digest, s, first, rest);
    CodeRedeemed(digest, s, rid, form, random);
    DeservedCode(digest, s, form, tenant);
    var u := RunFrom(digest, s, first);
    SameLook(s, u, tenant);
    if p.Some? && GoodCode(digest, p.value, client, form.secret != "", form.grant.redirectUri, form.grant.verifier) {
      LastLook(digest, u, rid, client, CodePlan(client, form, p.value), random);
    } else {
      NothingLeft(digest, u, rid, random);
    }
  }

  lemma SameLook(s: State, t: State, tenant: string)
    requires t.gate == s.gate
    ensures LetThrough(t, tenant) == LetThrough(s, tenant) && CacheAfter(t, tenant) == CacheAfter(s, tenant)
  {
  }

  lemma DeservedCode(digest: Digest, s: State, form: Form, tenant: string)
    requires form.grant.CodeGrant? && ClientAuth(s.clients, form.clientId, form.secret).Some?
    requires var p := Lookup(s.codes, form.grant.code); p.Some? ==> tenant == p.value.tenant
    ensures var p := Lookup(s.codes, form.grant.code);
            Deserved(digest, s, form, tenant) <==>
              && p.Some?
              && GoodCode(digest, p.value, By(s, form), form.secret != "", form.grant.redirectUri, form.grant.verifier)
              && LetThrough(s, tenant)
  {
    hide ClientAuth, GoodCode, TokenEndpoint.LetThrough;
  }

  // ---------------------------------------------------------------- service requests

  lemma Checks(digest: Digest, s: State, rid: nat, client: Client)
    requires rid in s.forms && s.forms[rid].grant.ServiceGrant? && rid in s.requests
    requires s.requests[rid] == Received(client)
    ensures Step(digest, s, Advance(rid, "")) ==
              s.(requests := s.requests[rid := CheckedService(client, s.forms[rid])], time := s.time + 1)
  {
    hide CheckedService;
  }

  lemma Plans(digest: Digest, s: State, rid: nat, client: Client, call: nat)
    requires rid in s.forms && s.forms[rid].grant.ServiceGrant? && rid in s.requests
    requires s.requests[rid] == AtGate(client, client.tenant, Some(call), ThenMintForService)
    requires call in s.gate.done && s.gate.done[call].reply.admits
    ensures Step(digest, s, Advance(rid, "")) ==
              s.(requests := s.requests[rid := AtGate(client, client.tenant, None,
                                                      ThenMint(ServicePlan(client, s.forms[rid])))],
                 time := s.time + 1)
  {
    hide ServiceScope;
  }

  function ServiceSchedule(rid: nat, form: Form, n: nat, random: string): seq<Event> {
    [Submit(rid, form), Advance(rid, "")] + (Calls(rid, n) + [Advance(rid, "")])
          + (Calls(rid, n + 1) + [Advance(rid, random)])
  }

  /** What the gate's cache says after a look that let through lets through again, at the same
      moment. */
  lemma LookTwice(cache: TenantGate.Cache, configured: bool, tenant: string, look: TokenEndpoint.Look)
    requires TokenEndpoint.LetThrough(cache, configured, tenant, look)
    ensures TokenEndpoint.LetThrough(TokenEndpoint.After(cache, configured, tenant, look), configured, tenant, look)
  {
  }

  lemma LookAgain(s: State, t: State, tenant: string)
    requires SameMoment(s, t) && t.gate.cache == CacheAfter(s, tenant) && LetThrough(s, tenant)
    ensures LetThrough(t, tenant)
  {
    hide TokenEndpoint.LetThrough, TokenEndpoint.After, GateRuns.Registered;
    LookTwice(s.gate.cache, s.gate.configured, tenant, LookNow(s, tenant));
  }

  lemma DeservedService(digest: Digest, s: State, form: Form, tenant: string)
    requires form.grant.ServiceGrant? && ClientAuth(s.clients, form.clientId, form.secret).Some?
    requires tenant == By(s, form).tenant
    ensures Deserved(digest, s, form, tenant) <==>
              form.secret != "" && ClientCredentials in By(s, form).grants && LetThrough(s, tenant)
  {
    hide ClientAuth, TokenEndpoint.LetThrough, TokenEndpoint.After;
    if LetThrough(s, tenant) { LookTwice(s.gate.cache, s.gate.configured, tenant, LookNow(s, tenant)); }
  }

  /** A first look, and the step after it. */
  lemma FirstLook(digest: Digest, s: State, rid: nat, client: Client, tenant: string, next: Next)
    requires rid in s.forms && rid in s.requests && s.requests[rid] == AtGate(client, tenant, None, next)
    requires NumbersBelow(s.gate, s.calls)
    ensures var n := s.calls;
            var u := RunFrom(digest, s, Calls(rid, n));
            && u == s.(requests := s.requests[rid := AtGate(client, tenant, Some(n), next)], calls := n + 1,
                       time := s.time + 4, gate := u.gate)
            && RunFrom(digest, s, Calls(rid, n) + [Advance(rid, "")]) == Step(digest, u, Advance(rid, ""))
            && NumbersBelow(u.gate, n + 1) && n in u.gate.done && u.gate.done[n].reply.admits == LetThrough(s, tenant)
            && (LetThrough(s, tenant) ==> LetThrough(u, tenant))
  {
    hide RunFrom, Step, Calls, LetThrough, CacheAfter;
    Called(digest, s, rid, client, tenant, next);
    var u := RunFrom(digest, s, Calls(rid, s.calls));
    RunFromAppend(digest, s, Calls(rid, s.calls), [Advance(rid, "")]);
    OneEvent(digest, u, Advance(rid, ""));
    if LetThrough(s, tenant) { LookAgain(s, u, tenant); }
  }

  /** A service request alone. */
  lemma ServiceAlone(digest: Digest, s: State, rid: nat, form: Form, random: string)
    requires Arrives(s, rid, form, random) && form.grant.ServiceGrant?
    ensures var t := RunFrom(digest, s, ServiceSchedule(rid, form, s.calls, random));
            && (Served(t, rid) <==> Deserved(digest, s, form, By(s, form).tenant))
            && t.codes == s.codes && t.refresh == s.refresh
  {
    hide RunFrom, Step, Calls, LetThrough, ClientAuth, Deserved, Served, ServicePlan;
    var client := By(s, form);
    var first, middle := [Submit(rid, form), Advance(rid, "")], Calls(rid, s.calls) + [Advance(rid, "")];
    var last := Calls(rid, s.calls + 1) + [Advance(rid, random)];
    RunFromAppend(digest, s, first, middle);
    RunFromAppend(digest, s, first + middle, last);
    TwoEvents(digest, s, first[0], first[1]);
    Submits(digest, s, rid, form, client);
    var s1 := Step(digest, s, first[0]);
    Checks(digest, s1, rid, client);
    var u := RunFrom(digest, s, first);
    SameLook(s, u, client.tenant);
    DeservedService(digest, s, form, client.tenant);
    ServiceTail(digest, u, rid, client, form, random);
  }

  lemma ServiceTail(digest: Digest, u: State, rid: nat, client: Client, form: Form, random: string)
    requires form.grant.ServiceGrant? && rid in u.forms && u.forms[rid] == form && rid in u.requests
    requires u.requests[rid] == CheckedService(client, form) && NumbersBelow(u.gate, u.calls) && Fresh(u, random)
    ensures var middle := Calls(rid, u.calls) + [Advance(rid, "")];
            var t := RunFrom(digest, RunFrom(digest, u, middle), Calls(rid, u.calls + 1) + [Advance(rid, random)]);
            && (Served(t, rid) <==>
                  form.secret != "" && ClientCredentials in client.grants && LetThrough(u, client.tenant))
            && t.codes == u.codes && t.refresh == u.refresh
  {
    hide RunFrom, Step, Calls, LetThrough, CacheAfter, ServicePlan, Served;
    if u.requests[rid].Closed? {
      ClosedTail(digest, u, rid, random);
    } else {
      FirstLook(digest, u, rid, client, client.tenant, ThenMintForService);
      var v := RunFrom(digest, u, Calls(rid, u.calls));
      if LetThrough(u, client.tenant) {
        ServicePasses(digest, v, rid, client, form, u.calls, random);
      } else {
        FirstRefusal(digest, v, rid, random);
      }
    }
  }

  lemma ServicePasses(digest: Digest, v: State, rid: nat, client: Client, form: Form, call: nat, random: string)
    requires form.grant.ServiceGrant? && rid in v.forms && v.forms[rid] == form && rid in v.requests && Fresh(v, random)
    requires v.requests[rid] == AtGate(client, client.tenant, Some(call), ThenMintForService)
    requires call in v.gate.done && v.gate.done[call].reply.admits
    requires NumbersBelow(v.gate, v.calls) && LetThrough(v, client.tenant)
    ensures var t := RunFrom(digest, Step(digest, v, Advance(rid, "")), Calls(rid, v.calls) + [Advance(rid, random)]);
            Served(t, rid) && t.codes == v.codes && t.refresh == v.refresh
  {
    hide RunFrom, Step, Calls, LetThrough, CacheAfter, ServicePlan, Served;
    Plans(digest, v, rid, client, call);
    var w := Step(digest, v, Advance(rid, ""));
    SameLook(v, w, client.tenant);
    ServicePlanIs(client, form);
    LastLook(digest, w, rid, client, ServicePlan(client, form), random);
  }

  /** A request refused by its first look is closed for the rest of the schedule. */
  lemma FirstRefusal(digest: Digest, v: State, rid: nat, random: string)
    requires rid in v.forms && rid in v.requests && v.requests[rid].AtGate? && v.requests[rid].call.Some?
    requires v.requests[rid].call.value in v.gate.done && !v.gate.done[v.requests[rid].call.value].reply.admits
    requires NumbersBelow(v.gate, v.calls)
    ensures var w := Step(digest, v, Advance(rid, ""));
            && w.requests == v.requests[rid := Refusal(v.requests[rid].next, v.requests[rid].call.value)]
            && w.calls == v.calls && NumbersBelow(w.gate, w.calls)
            && var t := RunFrom(digest, w, Calls(rid, v.calls) + [Advance(rid, random)]);
               !Served(t, rid) && t.codes == v.codes && t.refresh == v.refresh
  {
    hide RunFrom, Step, Calls;
    Refuses(digest, v, rid, "");
    NothingLeft(digest, Step(digest, v, Advance(rid, "")), rid, random);
  }

  lemma ServicePlanIs(client: Client, form: Form)
    requires form.grant.ServiceGrant?
    ensures ServicePlan(client, form).tenant == client.tenant && !Reissues(ServicePlan(client, form))
  {
  }

  /** A request closed before its first look stays so for both. */
  lemma ClosedTail(digest: Digest, u: State, rid: nat, random: string)
    requires rid in u.requests && u.requests[rid].Closed? && !u.requests[rid].outcome.Served?
    requires NumbersBelow(u.gate, u.calls)
    ensures var t := RunFrom(digest, RunFrom(digest, u, Calls(rid, u.calls) + [Advance(rid, "")]),
                             Calls(rid, u.calls + 1) + [Advance(rid, random)]);
            !Served(t, rid) && t.codes == u.codes && t.refresh == u.refresh
  {
    hide RunFrom, Step;
    ClosedStays(digest, u, rid, Calls(rid, u.calls) + [Advance(rid, "")]);
    var v := RunFrom(digest, u, Calls(rid, u.calls) + [Advance(rid, "")]);
    ClosedStays(digest, v, rid, Calls(rid, u.calls + 1) + [Advance(rid, random)]);
  }

  // ---------------------------------------------------------------- refresh requests

  lemma Peeks(digest: Digest, s: State, rid: nat, client: Client)
    requires rid in s.forms && s.forms[rid].grant.RefreshGrant? && rid in s.requests
    requires s.requests[rid] == Received(client)
    ensures var p := Lookup(s.refresh, s.forms[rid].grant.token);
            Step(digest, s, Advance(rid, "")) ==
              s.(requests := s.requests[rid := if p.Some? && p.value.clientId == client.id
                                               then AtGate(client, p.value.tenant, None, ThenConsume)
                                               else Cleared(client)],
                 time := s.time + 1)
  {
  }

  lemma FailsToConsume(digest: Digest, s: State, rid: nat, client: Client)
    requires rid in s.forms && s.forms[rid].grant.RefreshGrant? && rid in s.requests
    requires s.requests[rid] == Cleared(client)
    requires var p := Lookup(s.refresh, s.forms[rid].grant.token); p.None? || p.value.clientId != client.id
    ensures var u := Step(digest, s, Advance(rid, ""));
            && rid in u.requests && u.requests[rid].Closed? && !u.requests[rid].outcome.Served?
            && u.codes == s.codes && u.gate == s.gate && u.calls == s.calls && u.forms == s.forms
            && u.refresh == if Lookup(s.refresh, s.forms[rid].grant.token).None? then s.refresh
                            else s.refresh - {s.forms[rid].grant.token}
  {
  }

  function RefreshSchedule(rid: nat, form: Form, n: nat, random: string): seq<Event> {
    [Submit(rid, form), Advance(rid, "")] + (Calls(rid, n) + [Advance(rid, ""), Advance(rid, "")])
    + (Calls(rid, n + 1) + [Advance(rid, random)])
  }

  lemma DeservedRefresh(digest: Digest, s: State, form: Form, tenant: string)
    requires form.grant.RefreshGrant? && ClientAuth(s.clients, form.clientId, form.secret).Some?
    requires var p := Lookup(s.refresh, form.grant.token); p.Some? ==> tenant == p.value.tenant
    ensures var p := Lookup(s.refresh, form.grant.token);
            Deserved(digest, s, form, tenant) <==>
              p.Some? && p.value.clientId == By(s, form).id && LetThrough(s, tenant)
  {
    hide ClientAuth, TokenEndpoint.LetThrough, TokenEndpoint.After;
    if LetThrough(s, tenant) { LookTwice(s.gate.cache, s.gate.configured, tenant, LookNow(s, tenant)); }
  }

  /** The refresh tokens after a refresh alone. */
  function RefreshedTo(s: State, form: Form, client: Client, served: bool, tenant: string,
                       random: string): map<string, RefreshPayload>
    requires form.grant.RefreshGrant?
  {
    var token := form.grant.token;
    var p := Lookup(s.refresh, token);
    if p.None? then s.refresh
    else if p.value.clientId != client.id then s.refresh - {token}
    else if !served then s.refresh
    else
      var scope := Narrow(p.value.scope, form.grant.scope);
      if Offline(scope)
      then (s.refresh - {token})[random := RefreshPayload(client.id, p.value.user, tenant, scope, p.value.origin,
                                                          p.value.root)]
      else s.refresh - {token}
  }

  /** A refresh request alone: served exactly where the endpoint answers with tokens; refused by
      its first look it leaves its token; and the rotated token of the endpoint is stored. */
  lemma RefreshAlone(digest: Digest, s: State, rid: nat, form: Form, random: string)
    requires Arrives(s, rid, form, random) && form.grant.RefreshGrant?
    ensures var t := RunFrom(digest, s, RefreshSchedule(rid, form, s.calls, random));
            var p := Lookup(s.refresh, form.grant.token);
            var tenant := if p.Some? then p.value.tenant else "";
            && (Served(t, rid) <==> Deserved(digest, s, form, tenant))
            && t.codes == s.codes
            && t.refresh == RefreshedTo(s, form, By(s, form), Served(t, rid), tenant, random)
  {
    hide RunFrom, Step, Calls, LetThrough, ClientAuth, Deserved, Served, RefreshedTo, Lookup, Peeked;
    var client, p := By(s, form), Lookup(s.refresh, form.grant.token);
    var tenant := if p.Some? then p.value.tenant else "";
    var first := [Submit(rid, form), Advance(rid, "")];
    var middle := Calls(rid, s.calls) + [Advance(rid, ""), Advance(rid, "")];
    var last := Calls(rid, s.calls + 1) + [Advance(rid, random)];
    RunFromAppend(digest, s, first, middle);
    RunFromAppend(digest, s, first + middle, last);
    RefreshPeeked(digest, s, rid, form, tenant, random);
    var u := RunFrom(digest, s, first);
    SameLook(s, u, tenant);
    DeservedRefresh(digest, s, form, tenant);
    RefreshTail(digest, u, rid, client, form, tenant, random);
    SameRefreshedTo(s, u, form, client, tenant, random);
  }

  lemma SameRefreshedTo(s: State, u: State, form: Form, client: Client, tenant: string, random: string)
    requires form.grant.RefreshGrant? && u.refresh == s.refresh
    ensures forall served :: RefreshedTo(u, form, client, served, tenant, random)
                             == RefreshedTo(s, form, client, served, tenant, random)
  {
  }

  predicate Peeked(u: State, rid: nat, client: Client, form: Form, tenant: string)
    requires form.grant.RefreshGrant?
  {
    var p := Lookup(u.refresh, form.grant.token);
    && rid in u.forms && u.forms[rid] == form && rid in u.requests && NumbersBelow(u.gate, u.calls)
    && (p.Some? ==> tenant == p.value.tenant)
    && u.requests[rid] == if p.Some? && p.value.clientId == client.id
                          then AtGate(client, p.value.tenant, None, ThenConsume)
                          else Cleared(client)
  }

  lemma RefreshPeeked(digest: Digest, s: State, rid: nat, form: Form, tenant: string, random: string)
    requires Arrives(s, rid, form, random) && form.grant.RefreshGrant?
    requires var p := Lookup(s.refresh, form.grant.token); p.Some? ==> tenant == p.value.tenant
    ensures var u := RunFrom(digest, s, [Submit(rid, form), Advance(rid, "")]);
            && Peeked(u, rid, By(s, form), form, tenant) && Fresh(u, random)
            && u.gate == s.gate && u.calls == s.calls && u.codes == s.codes && u.refresh == s.refresh
  {
    hide RunFrom, Step, ClientAuth;
    TwoEvents(digest, s, Submit(rid, form), Advance(rid, ""));
    Submits(digest, s, rid, form, By(s, form));
    Peeks(digest, Step(digest, s, Submit(rid, form)), rid, By(s, form));
  }

  lemma RefreshTail(digest: Digest, u: State, rid: nat, client: Client, form: Form, tenant: string, random: string)
    requires form.grant.RefreshGrant? && Peeked(u, rid, client, form, tenant) && Fresh(u, random)
    ensures var p := Lookup(u.refresh, form.grant.token);
            var middle := Calls(rid, u.calls) + [Advance(rid, ""), Advance(rid, "")];
            var t := RunFrom(digest, RunFrom(digest, u, middle), Calls(rid, u.calls + 1) + [Advance(rid, random)]);
            && (Served(t, rid) <==> p.Some? && p.value.clientId == client.id && LetThrough(u, tenant))
            && t.codes == u.codes && t.refresh == RefreshedTo(u, form, client, Served(t, rid), tenant, random)
  {
    hide RunFrom, Step, Calls, LetThrough, CacheAfter, Served;
    var p := Lookup(u.refresh, form.grant.token);
    if p.Some? && p.value.clientId == client.id {
      GoodRefresh(digest, u, rid, client, form, tenant, random);
    } else {
      BadRefresh(digest, u, rid, client, form, tenant, random);
    }
  }

  lemma GoodRefresh(digest: Digest, u: State, rid: nat, client: Client, form: Form, tenant: string, random: string)
    requires form.grant.RefreshGrant? && Peeked(u, rid, client, form, tenant) && Fresh(u, random)
    requires var p := Lookup(u.refresh, form.grant.token); p.Some? && p.value.clientId == client.id
    ensures var middle := Calls(rid, u.calls) + [Advance(rid, ""), Advance(rid, "")];
            var t := RunFrom(digest, RunFrom(digest, u, middle), Calls(rid, u.calls + 1) + [Advance(rid, random)]);
            && (Served(t, rid) <==> LetThrough(u, tenant))
            && t.codes == u.codes && t.refresh == RefreshedTo(u, form, client, Served(t, rid), tenant, random)
  {
    hide RunFrom, Step, Calls, LetThrough, CacheAfter, Served, Narrow;
    var n := u.calls;
    FirstLook(digest, u, rid, client, tenant, ThenConsume);
    var v := RunFrom(digest, u, Calls(rid, n));
    RunFromAppend(digest, u, Calls(rid, n), [Advance(rid, ""), Advance(rid, "")]);
    TwoEvents(digest, v, Advance(rid, ""), Advance(rid, ""));
    var w := Step(digest, v, Advance(rid, ""));
    var x := Step(digest, w, Advance(rid, ""));
    if LetThrough(u, tenant) {
      RefreshPasses(digest, v, rid, client, form, tenant, n, random);
    } else {
      Refuses(digest, v, rid, "");
      MootStep(digest, w, rid, Advance(rid, ""));
      NothingLeft(digest, x, rid, random);
    }
  }

  lemma RefreshPasses(digest: Digest, v: State, rid: nat, client: Client, form: Form, tenant: string, call: nat,
                      random: string)
    requires form.grant.RefreshGrant? && rid in v.forms && v.forms[rid] == form && rid in v.requests && Fresh(v, random)
    requires v.requests[rid] == AtGate(client, tenant, Some(call), ThenConsume)
    requires call in v.gate.done && v.gate.done[call].reply.admits
    requires NumbersBelow(v.gate, v.calls) && LetThrough(v, tenant)
    requires var p := Lookup(v.refresh, form.grant.token);
             p.Some? && p.value.clientId == client.id && p.value.tenant == tenant
    ensures var x := Step(digest, Step(digest, v, Advance(rid, "")), Advance(rid, ""));
            var t := RunFrom(digest, x, Calls(rid, v.calls) + [Advance(rid, random)]);
            Served(t, rid) && t.codes == v.codes && t.refresh == RefreshedTo(v, form, client, true, tenant, random)
  {
    hide RunFrom, Step, Calls, LetThrough, CacheAfter, Served, Narrow;
    var p := Lookup(v.refresh, form.grant.token).value;
    var w := Step(digest, v, Advance(rid, ""));
    var x := Step(digest, w, Advance(rid, ""));
    AdvancesPast(digest, v, rid, client, tenant, call);
    AdvancesConsuming(digest, w, rid, client);
    SameLook(v, x, tenant);
    LastLook(digest, x, rid, client, RotationPlan(client, form, p), random);
  }

  lemma BadRefresh(digest: Digest, u: State, rid: nat, client: Client, form: Form, tenant: string, random: string)
    requires form.grant.RefreshGrant? && Peeked(u, rid, client, form, tenant)
    requires var p := Lookup(u.refresh, form.grant.token); p.None? || p.value.clientId != client.id
    ensures var middle := Calls(rid, u.calls) + [Advance(rid, ""), Advance(rid, "")];
            var t := RunFrom(digest, RunFrom(digest, u, middle), Calls(rid, u.calls + 1) + [Advance(rid, random)]);
            && !Served(t, rid) && t.codes == u.codes
            && t.refresh == RefreshedTo(u, form, client, Served(t, rid), tenant, random)
  {
    hide RunFrom, Step;
    var n := u.calls;
    var rest := [Gate(GateRuns.Probe(n)), Gate(GateRuns.Ask(n)), Gate(GateRuns.Store(n)), Advance(rid, ""),
                 Advance(rid, "")];
    assert Calls(rid, n) + [Advance(rid, ""), Advance(rid, "")] == [Advance(rid, "")] + rest;
    RunFromAppend(digest, u, [Advance(rid, "")], rest);
    OneEvent(digest, u, Advance(rid, ""));
    FailsToConsume(digest, u, rid, client);
    var v := Step(digest, u, Advance(rid, ""));
    ClosedStays(digest, v, rid, rest);
    var w := RunFrom(digest, v, rest);
    ClosedStays(digest, w, rid, Calls(rid, n + 1) + [Advance(rid, random)]);
  }
}
