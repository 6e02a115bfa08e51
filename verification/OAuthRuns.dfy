/** Whole runs of the OAuth machine: the invariant holds in every reachable state, however the
    steps of token requests interleave. */
module OAuthRuns {
  import opened Text
  import opened OAuth
  import opened OAuthMachine
  import opened OAuthInvariant
  import opened OAuthSteps
  import GateRuns

  lemma TokensThenInv(digest: Digest, s: State, t: State)
    requires Inv(digest, s) && Tokens(digest, t)
    requires t.clients == s.clients && t.consent == s.consent && t.log == s.log && t.auths == s.auths
    ensures Inv(digest, t)
  {
    hide ConsentOk, AuthsOk, ClientsOk, CodesOk, RefreshesOk, RequestsOk, TakenOk, MintsOk, LineageOk, GateOk;
  }

  lemma InvThenTokens(digest: Digest, s: State)
    requires Inv(digest, s)
    ensures Tokens(digest, s) && ClientsOk(s.clients) && AuthsOk(s.auths)
  {
    hide ConsentOk, AuthsOk, ClientsOk, CodesOk, RefreshesOk, RequestsOk, TakenOk, MintsOk, LineageOk, GateOk;
  }

  // ---------------------------------------------------------------- authorizing

  lemma AuthorizedOk(s: State, p: AuthzParams, ident: Ident, basis: Basis)
    requires Resolve(s.clients, p).Granted? && (basis == TrustedClient ==> Resolve(s.clients, p).client.trusted)
    ensures var r := Resolve(s.clients, p);
            AuthOk(Authorization(r.client, ident, p.redirectUri, r.scopes, p.challenge, p.how, basis, s.time))
  {
    ResolveMeans(s.clients, p);
    hide Resolve;
  }

  lemma AuthorizingKeepsInv(digest: Digest, s: State, p: AuthzParams, ident: Ident, consentUp: bool, random: string)
    requires Inv(digest, s)
    ensures Inv(digest, Authorizing(s, p, ident, consentUp, random))
  {
    hide Resolve, AuthOk, Has, IssuedCode, ClientsOk, ConsentOk, CodesOk, RefreshesOk, RequestsOk, TakenOk, MintsOk,
          LineageOk, GateOk, AuthsOk;
    var r := Resolve(s.clients, p);
    if r.Granted? && Fresh(s, random) {
      if r.client.trusted {
        AuthorizedOk(s, p, ident, TrustedClient);
        IssuedCodeKeepsInv(digest, s, p, r.client, r.scopes, ident, TrustedClient, random);
      } else if consentUp && Has(s.consent, KeyFor(r.client, ident), r.scopes) {
        AuthorizedOk(s, p, ident, RememberedConsent);
        IssuedCodeKeepsInv(digest, s, p, r.client, r.scopes, ident, RememberedConsent, random);
      }
    }
  }

  lemma RememberingFrame(s: State, client: Client, scopes: seq<string>, ident: Ident)
    ensures var t := Remembering(s, client, scopes, ident);
            t.clients == s.clients && t.born == s.born && t.time == s.time && |t.log| == |s.log| + 1
  {
  }

  lemma DecidingKeepsInv(digest: Digest, s: State, p: AuthzParams, ident: Ident, approved: bool, remember: bool,
                         consentUp: bool, random: string)
    requires Inv(digest, s)
    ensures Inv(digest, Deciding(s, p, ident, approved, remember, consentUp, random))
  {
    hide Resolve, AuthOk, IssuedCode, Remembering, ClientsOk, ConsentOk, CodesOk, RefreshesOk, RequestsOk, TakenOk,
          MintsOk, LineageOk, GateOk, AuthsOk;
    var r := Resolve(s.clients, p);
    if r.Granted? && approved && Fresh(s, random) {
      var s1 := if remember && consentUp then Remembering(s, r.client, r.scopes, ident) else s;
      RememberingKeepsInv(digest, s, r.client, r.scopes, ident);
      RememberingFrame(s, r.client, r.scopes, ident);
      AuthorizedOk(s1, p, ident, ApprovedNow);
      IssuedCodeKeepsInv(digest, s1, p, r.client, r.scopes, ident, ApprovedNow, random);
    }
  }

  // ---------------------------------------------------------------- the token endpoint

  lemma RedeemedOk(digest: Digest, s: State, rid: nat, client: Client, form: Form, payload: CodePayload)
    requires rid in s.forms && s.forms[rid] == form && Authenticated(form, client)
    requires form.grant.CodeGrant? && form.grant.code in s.codes && s.codes[form.grant.code] == payload
    requires CodeOk(s, form.grant.code, payload)
    ensures var r := Redeemed(digest, client, form, payload);
            && RequestOk(digest, TakeCode(s, rid, form.grant.code, r), rid, r) && Consumed(r)
            && (InRequest(r).Some? ==> InRequest(r).value == Held(payload.origin, Split(payload.scope)))
  {
    hide VerifyPkce;
  }

  lemma RotationPlanOk(digest: Digest, s: State, t: State, rid: nat, client: Client, form: Form,
                       payload: RefreshPayload)
    requires rid in t.forms && t.forms[rid] == form && Authenticated(form, client) && client.id == payload.clientId
    requires form.grant.RefreshGrant? && RefreshOk(s, form.grant.token, payload)
    requires t.auths == s.auths && t.born == s.born && t.minted == s.minted
    requires form.grant.token in t.taken && t.taken[form.grant.token] == rid
    ensures PlanOk(digest, t, rid, RotationPlan(client, form, payload))
    ensures Subset(Split(Narrow(payload.scope, form.grant.scope)), Split(payload.scope))
  {
    hide Narrow, Authenticated;
    NarrowOnlyNarrows(payload.scope, form.grant.scope);
  }

  lemma RotatedOk(digest: Digest, s: State, rid: nat, client: Client, form: Form, payload: RefreshPayload)
    requires rid in s.forms && s.forms[rid] == form && Authenticated(form, client)
    requires form.grant.RefreshGrant? && form.grant.token in s.refresh && s.refresh[form.grant.token] == payload
    requires RefreshOk(s, form.grant.token, payload)
    ensures var r := Rotated(client, form, payload);
            && RequestOk(digest, TakeRefresh(s, rid, form.grant.token, r), rid, r) && Consumed(r)
            && (InRequest(r).Some? ==>
                  && InRequest(r).value.origin == payload.origin
                  && Subset(InRequest(r).value.words, Split(payload.scope)))
  {
    hide Narrow, PlanOk, RefreshOk, Authenticated, Subset;
    if payload.clientId == client.id {
      RotationPlanOk(digest, s, TakeRefresh(s, rid, form.grant.token, Rotated(client, form, payload)), rid, client,
                     form, payload);
    }
  }

  lemma ReceivedOk(digest: Digest, s: State, rid: nat, client: Client, form: Form)
    requires rid in s.forms && s.forms[rid] == form && Authenticated(form, client)
    ensures form.grant.RefreshGrant? ==>
              forall tenant :: RequestOk(digest, s, rid, AtGate(client, tenant, None, ThenConsume))
    ensures form.grant.RefreshGrant? ==> RequestOk(digest, s, rid, Cleared(client))
    ensures form.grant.ServiceGrant? ==>
            RequestOk(digest, s, rid, CheckedService(client, form)) && InRequest(CheckedService(client, form)) == None
    ensures forall o: Outcome :: OutcomeOk(s, rid, o) ==> RequestOk(digest, s, rid, Closed(o))
    ensures form.grant.ServiceGrant? && form.secret != "" && ClientCredentials in client.grants ==>
              RequestOk(digest, s, rid, AtGate(client, client.tenant, None, ThenMint(ServicePlan(client, form))))
  {
    hide ServiceScope;
  }

  lemma ConsumingCodeKeepsTokens(digest: Digest, s: State, rid: nat, client: Client, form: Form)
    requires Tokens(digest, s) && rid in s.forms && s.forms[rid] == form && form.grant.CodeGrant?
    requires rid in s.requests && s.requests[rid] == Received(client)
    ensures Tokens(digest, ConsumingCode(digest, s, rid, client, form))
  {
    hide RequestOk, CodeOk, RefreshesOk, MintsOk, TakenOk, LineageOk, GateOk, Redeemed, TakeCode, Authenticated;
    RequestClient(digest, s, rid);
    ReceivedOk(digest, s, rid, client, form);
    var payload := Lookup(s.codes, form.grant.code);
    if payload.None? {
      MovedKeepsTokens(digest, s, rid, Closed(UnknownCode));
    } else {
      RedeemedOk(digest, s, rid, client, form, payload.value);
      TakingCodeKeepsTokens(digest, s, rid, form.grant.code, Redeemed(digest, client, form, payload.value));
    }
  }

  lemma ConsumingRefreshKeepsTokens(digest: Digest, s: State, rid: nat, client: Client, form: Form)
    requires Tokens(digest, s) && rid in s.forms && s.forms[rid] == form && form.grant.RefreshGrant?
    requires rid in s.requests && s.requests[rid] == Cleared(client)
    ensures Tokens(digest, ConsumingRefresh(s, rid, client, form))
  {
    hide RequestOk, CodesOk, RefreshOk, MintsOk, TakenOk, LineageOk, GateOk, Rotated, TakeRefresh, Authenticated;
    RequestClient(digest, s, rid);
    ReceivedOk(digest, s, rid, client, form);
    var payload := Lookup(s.refresh, form.grant.token);
    if payload.None? {
      MovedKeepsTokens(digest, s, rid, Closed(UnknownRefresh));
    } else {
      RotatedOk(digest, s, rid, client, form, payload.value);
      TakingRefreshKeepsTokens(digest, s, rid, form.grant.token, Rotated(client, form, payload.value));
    }
  }

  lemma RequestClient(digest: Digest, s: State, rid: nat)
    requires RequestsOk(digest, s) && rid in s.requests
    ensures rid in s.forms && RequestOk(digest, s, rid, s.requests[rid])
    ensures s.requests[rid].Received? ==> Authenticated(s.forms[rid], s.requests[rid].client)
    ensures s.requests[rid].Cleared? ==> Authenticated(s.forms[rid], s.requests[rid].client)
    ensures s.requests[rid].AtGate? ==>
              && Authenticated(s.forms[rid], s.requests[rid].client)
              && NextOk(digest, s, rid, s.requests[rid].client, s.requests[rid].tenant, s.requests[rid].next)
  {
    hide PlanOk, Authenticated, NextOk;
  }

  lemma DispatchingKeepsTokens(digest: Digest, s: State, rid: nat, client: Client)
    requires Tokens(digest, s) && rid in s.requests && rid in s.forms && s.requests[rid] == Received(client)
    ensures Tokens(digest, Dispatching(digest, s, rid, client, s.forms[rid]))
  {
    hide RequestOk, CodesOk, RefreshesOk, MintsOk, TakenOk, LineageOk, GateOk, Authenticated, ConsumingCode, Moved,
          CheckedService;
    var form := s.forms[rid];
    RequestClient(digest, s, rid);
    ReceivedOk(digest, s, rid, client, form);
    match form.grant
    case CodeGrant(_, _, _) => ConsumingCodeKeepsTokens(digest, s, rid, client, form);
    case RefreshGrant(token, _) =>
      var payload := Lookup(s.refresh, token);
      if payload.Some? && payload.value.clientId == client.id {
        MovedKeepsTokens(digest, s, rid, AtGate(client, payload.value.tenant, None, ThenConsume));
      } else {
        MovedKeepsTokens(digest, s, rid, Cleared(client));
      }
    case ServiceGrant(_) => MovedKeepsTokens(digest, s, rid, CheckedService(client, form));
    case OtherGrant => MovedKeepsTokens(digest, s, rid, Closed(UnsupportedGrant));
  }

  lemma PassingKeepsTokens(digest: Digest, s: State, rid: nat, r: Request, call: nat, random: string)
    requires Tokens(digest, s) && AuthsOk(s.auths)
    requires rid in s.requests && rid in s.forms && s.requests[rid] == r && r.AtGate? && r.call == Some(call)
    requires call in s.gate.done && s.gate.done[call].reply.admits
    ensures Tokens(digest, Passing(s, rid, r, s.forms[rid], call, random))
  {
    hide RequestOk, CodesOk, RefreshesOk, MintsOk, TakenOk, LineageOk, GateOk, AuthsOk, Authenticated, Moved, Minting,
          ServicePlan, PlanOk, Reissues;
    var form := s.forms[rid];
    RequestClient(digest, s, rid);
    ReceivedOk(digest, s, rid, r.client, form);
    match r.next
    case ThenConsume => MovedKeepsTokens(digest, s, rid, Cleared(r.client));
    case ThenMintForService => PassingService(digest, s, rid, r);
    case ThenMint(plan) =>
      if Reissues(plan) ==> Fresh(s, random) {
        MintingKeepsTokens(digest, s, rid, plan, call, random);
      }
  }

  lemma PassingService(digest: Digest, s: State, rid: nat, r: Request)
    requires Tokens(digest, s) && Open(s, rid) && s.requests[rid] == r && r.AtGate? && r.next.ThenMintForService?
    ensures rid in s.forms && s.forms[rid].grant.ServiceGrant?
    ensures Tokens(digest, Moved(s, rid, AtGate(r.client, r.tenant, None,
                                                ThenMint(ServicePlan(r.client, s.forms[rid])))))
  {
    hide RequestOk, CodesOk, RefreshesOk, MintsOk, TakenOk, LineageOk, GateOk, Authenticated, Moved, PlanOk;
    RequestClient(digest, s, rid);
    ReceivedOk(digest, s, rid, r.client, s.forms[rid]);
    MovedKeepsTokens(digest, s, rid, AtGate(r.client, r.tenant, None, ThenMint(ServicePlan(r.client, s.forms[rid]))));
  }

  lemma RefusalOk(digest: Digest, s: State, rid: nat, r: Request)
    requires RequestOk(digest, s, rid, r) && r.AtGate? && r.call.Some?
    requires r.call.value in s.gate.done && !s.gate.done[r.call.value].reply.admits
    ensures RequestOk(digest, s, rid, Refusal(r.next, r.call.value))
  {
    hide ScopeWithin, Authenticated, RootOk;
  }

  lemma GatingKeepsTokens(digest: Digest, s: State, rid: nat, r: Request, random: string)
    requires Tokens(digest, s) && AuthsOk(s.auths)
    requires rid in s.requests && rid in s.forms && s.requests[rid] == r && r.AtGate?
    ensures Tokens(digest, Gating(s, rid, r, s.forms[rid], random))
  {
    hide RequestOk, CodesOk, RefreshesOk, MintsOk, TakenOk, LineageOk, GateOk, AuthsOk, Authenticated, Moved, Passing,
          Calling, NextOk;
    var form := s.forms[rid];
    RequestClient(digest, s, rid);
    ReceivedOk(digest, s, rid, r.client, form);
    if r.call.None? {
      CallingKeepsTokens(digest, s, rid, r);
    } else if r.call.value in s.gate.done {
      if s.gate.done[r.call.value].reply.admits {
        PassingKeepsTokens(digest, s, rid, r, r.call.value, random);
      } else {
        RefusalOk(digest, s, rid, r);
        MovedKeepsTokens(digest, s, rid, Refusal(r.next, r.call.value));
      }
    }
  }

  lemma AdvancingKeepsTokens(digest: Digest, s: State, rid: nat, random: string)
    requires Tokens(digest, s) && AuthsOk(s.auths)
    ensures Tokens(digest, Advancing(digest, s, rid, random))
  {
    hide Tokens, AuthsOk, Gating, Dispatching, ConsumingRefresh;
    if rid in s.requests && rid in s.forms {
      var form := s.forms[rid];
      match s.requests[rid]
      case Received(client) => DispatchingKeepsTokens(digest, s, rid, client);
      case AtGate(_, _, _, _) => GatingKeepsTokens(digest, s, rid, s.requests[rid], random);
      case Cleared(client) => if form.grant.RefreshGrant? { ConsumingRefreshKeepsTokens(digest, s, rid, client, form); }
      case Closed(_) =>
    }
  }

  // ---------------------------------------------------------------- what a token request leaves alone

  predicate SameBase(s: State, t: State) {
    t.clients == s.clients && t.consent == s.consent && t.log == s.log && t.auths == s.auths && t.time == s.time
  }

  predicate SameRecords(s: State, t: State) {
    SameBase(s, t) && t.minted == s.minted
  }

  /** At most one access token was minted, for this request, which was at the gate with a plan
      and had been let through. */
  predicate MintsFor(s: State, t: State, rid: nat) {
    && SameBase(s, t)
    && (t.minted == s.minted
        || (&& |t.minted| == |s.minted| + 1 && s.minted <= t.minted
            && var m := t.minted[|s.minted|]; m.rid == rid && ReadyToMint(s, rid, m.plan, m.call)))
  }

  lemma MovedFrame(s: State, rid: nat, r: Request)
    ensures SameRecords(s, Moved(s, rid, r))
  {
  }

  lemma TakingFrame(s: State, rid: nat, token: string, r: Request)
    ensures SameRecords(s, TakeCode(s, rid, token, r)) && SameRecords(s, TakeRefresh(s, rid, token, r))
  {
  }

  lemma ConsumingFrame(digest: Digest, s: State, rid: nat, client: Client, form: Form)
    ensures form.grant.CodeGrant? ==> SameRecords(s, ConsumingCode(digest, s, rid, client, form))
    ensures form.grant.RefreshGrant? ==> SameRecords(s, ConsumingRefresh(s, rid, client, form))
    ensures form.grant.RefreshGrant? ==> SameRecords(s, Peeking(s, rid, client, form))
  {
    hide Moved, TakeCode, TakeRefresh, SameRecords, Redeemed, Rotated;
    match form.grant
    case CodeGrant(code, _, _) =>
      var payload := Lookup(s.codes, code);
      MovedFrame(s, rid, Closed(UnknownCode));
      if payload.Some? { TakingFrame(s, rid, code, Redeemed(digest, client, form, payload.value)); }
    case RefreshGrant(token, _) =>
      var payload := Lookup(s.refresh, token);
      MovedFrame(s, rid, Closed(UnknownRefresh));
      MovedFrame(s, rid, Cleared(client));
      if payload.Some? {
        TakingFrame(s, rid, token, Rotated(client, form, payload.value));
        MovedFrame(s, rid, AtGate(client, payload.value.tenant, None, ThenConsume));
      }
    case _ =>
  }

  lemma DispatchingFrame(digest: Digest, s: State, rid: nat, client: Client, form: Form)
    ensures SameRecords(s, Dispatching(digest, s, rid, client, form))
  {
    hide Moved, SameRecords, ConsumingCode, Peeking;
    ConsumingFrame(digest, s, rid, client, form);
    MovedFrame(s, rid, CheckedService(client, form));
    MovedFrame(s, rid, Closed(UnsupportedGrant));
  }

  lemma MintingFrame(s: State, rid: nat, plan: Plan, call: nat, random: string)
    requires ReadyToMint(s, rid, plan, call)
    ensures MintsFor(s, Minting(s, rid, plan, call, random), rid)
  {
    hide Reissues, ReadyToMint;
  }

  lemma CallingFrame(s: State, rid: nat, client: Client, tenant: string, next: Next)
    ensures SameRecords(s, Calling(s, rid, client, tenant, next))
  {
    hide GateRuns.Step;
  }

  lemma SameItself(s: State)
    ensures SameRecords(s, s)
  {
  }

  lemma SameThenMints(s: State, t: State, rid: nat)
    requires SameRecords(s, t)
    ensures MintsFor(s, t, rid)
  {
  }

  lemma PassingFrame(s: State, rid: nat, r: Request, form: Form, call: nat, random: string)
    requires rid in s.requests && s.requests[rid] == r && r.AtGate? && r.call == Some(call)
    requires call in s.gate.done && s.gate.done[call].reply.admits
    ensures MintsFor(s, Passing(s, rid, r, form, call, random), rid)
  {
    hide Moved, Minting, SameRecords, MintsFor, Reissues;
    SameItself(s);
    SameThenMints(s, s, rid);
    match r.next
    case ThenConsume =>
      MovedFrame(s, rid, Cleared(r.client));
      SameThenMints(s, Moved(s, rid, Cleared(r.client)), rid);
    case ThenMintForService =>
      if form.grant.ServiceGrant? {
        var r1 := AtGate(r.client, r.tenant, None, ThenMint(ServicePlan(r.client, form)));
        MovedFrame(s, rid, r1);
        SameThenMints(s, Moved(s, rid, r1), rid);
      }
    case ThenMint(plan) => MintingFrame(s, rid, plan, call, random);
  }

  lemma GatingFrame(s: State, rid: nat, r: Request, form: Form, random: string)
    requires rid in s.requests && s.requests[rid] == r && r.AtGate?
    ensures MintsFor(s, Gating(s, rid, r, form, random), rid)
  {
    hide Moved, Passing, Calling, SameRecords, MintsFor, Refusal;
    SameItself(s);
    SameThenMints(s, s, rid);
    if r.call.None? {
      CallingFrame(s, rid, r.client, r.tenant, r.next);
      SameThenMints(s, Calling(s, rid, r.client, r.tenant, r.next), rid);
    } else if r.call.value in s.gate.done {
      MovedFrame(s, rid, Refusal(r.next, r.call.value));
      SameThenMints(s, Moved(s, rid, Refusal(r.next, r.call.value)), rid);
      if s.gate.done[r.call.value].reply.admits { PassingFrame(s, rid, r, form, r.call.value, random); }
    }
  }

  lemma AdvancingFrame(digest: Digest, s: State, rid: nat, random: string)
    ensures MintsFor(s, Advancing(digest, s, rid, random), rid)
  {
    hide Dispatching, Gating, ConsumingRefresh, SameRecords, MintsFor;
    SameItself(s);
    SameThenMints(s, s, rid);
    if rid in s.requests && rid in s.forms {
      var form := s.forms[rid];
      match s.requests[rid]
      case Received(client) =>
        DispatchingFrame(digest, s, rid, client, form);
        SameThenMints(s, Dispatching(digest, s, rid, client, form), rid);
      case AtGate(_, _, _, _) => GatingFrame(s, rid, s.requests[rid], form, random);
      case Cleared(client) =>
        ConsumingFrame(digest, s, rid, client, form);
        if form.grant.RefreshGrant? { SameThenMints(s, ConsumingRefresh(s, rid, client, form), rid); }
      case Closed(_) =>
    }
  }

  lemma SubmittingFrame(s: State, rid: nat, form: Form)
    ensures SameRecords(s, Submitting(s, rid, form))
  {
  }

  lemma EffectKeepsInv(digest: Digest, s: State, e: Event)
    requires Inv(digest, s)
    ensures Inv(digest, Effect(digest, s, e))
  {
    hide Inv, Tokens, Authorizing, Deciding, Withdrawing, Submitting, Advancing, GateMoving, AuthsOk;
    InvThenTokens(digest, s);
    match e
    case Authorize(p, ident, consentUp, random) => AuthorizingKeepsInv(digest, s, p, ident, consentUp, random);
    case Decide(p, ident, approved, remember, consentUp, random) =>
      DecidingKeepsInv(digest, s, p, ident, approved, remember, consentUp, random);
    case Withdraw(key) => WithdrawingKeepsInv(digest, s, key);
    case PutClient(c) => ClientsChangeKeepsInv(digest, s, s.clients[c.id := c]);
    case DropClient(id) => ClientsChangeKeepsInv(digest, s, s.clients - {id});
    case ExpireCode(token) =>
      ExpiringCodeKeepsTokens(digest, s, token);
      TokensThenInv(digest, s, Effect(digest, s, e));
    case ExpireRefresh(token) =>
      ExpiringRefreshKeepsTokens(digest, s, token);
      TokensThenInv(digest, s, Effect(digest, s, e));
    case Submit(rid, form) =>
      SubmittingKeepsTokens(digest, s, rid, form);
      SubmittingFrame(s, rid, form);
      TokensThenInv(digest, s, Effect(digest, s, e));
    case Advance(rid, random) =>
      AdvancingKeepsTokens(digest, s, rid, random);
      AdvancingFrame(digest, s, rid, random);
      TokensThenInv(digest, s, Effect(digest, s, e));
    case Gate(ge) =>
      GateMovingKeepsTokens(digest, s, ge);
      GateMovingFrame(s, ge);
      TokensThenInv(digest, s, Effect(digest, s, e));
  }

  lemma GateMovingFrame(s: State, e: GateRuns.Event)
    ensures SameRecords(s, GateMoving(s, e))
  {
    hide GateRuns.Step;
  }

  lemma StepKeepsInv(digest: Digest, s: State, e: Event)
    requires Inv(digest, s)
    ensures Inv(digest, Step(digest, s, e))
  {
    hide Inv, Effect;
    EffectKeepsInv(digest, s, e);
    TimeKeepsInv(digest, Effect(digest, s, e), s.time + 1);
  }

  lemma {:induction false} RunFromKeepsInv(digest: Digest, s: State, es: seq<Event>)
    requires Inv(digest, s)
    ensures Inv(digest, RunFrom(digest, s, es))
  {
    hide Inv, Step;
    if es != [] {
      RunFromKeepsInv(digest, s, es[..|es| - 1]);
      StepKeepsInv(digest, RunFrom(digest, s, es[..|es| - 1]), es[|es| - 1]);
    }
  }

  lemma RunKeepsInv(digest: Digest, configured: bool, es: seq<Event>)
    ensures Inv(digest, Run(digest, configured, es))
  {
    hide Inv, RunFrom, Init;
    InitInv(digest, configured);
    RunFromKeepsInv(digest, Init(configured), es);
  }
}
