/** Exactly when a refresh token can be lost to its tenant: consumed after a first look at the
    gate that admitted, and then refused at the mint. */
module OAuthLoss {
  import opened Text
  import opened OAuth
  import opened OAuthMachine
  import opened OAuthInvariant
  import opened OAuthSteps
  import opened OAuthRuns
  import opened OAuthTheorems
  import opened OAuthGate
  import GateRuns
  import TenantGate

  // ---------------------------------------------------------------- how requests move

  /** One step of a request; `calls` is the number of gate calls made before it. */
  predicate Follows(calls: nat, before: Request, after: Request) {
    match before
    case AtGate(client, tenant, None, next) => after == AtGate(client, tenant, Some(calls), next)
    case AtGate(_, _, Some(call), next) =>
      && (after.AtGate? ==> after.call == None)
      && (after.Closed? && after.outcome.RefusedAtMint? ==> after.outcome.call == call && next.ThenMint?)
    case _ =>
      && (after.AtGate? ==> after.call == None)
      && (after.Closed? ==> !after.outcome.RefusedAtMint?)
  }

  /** No record is taken back, and a request that moved went only as far as one step goes. */
  predicate Onward(s: State, t: State) {
    && s.auths <= t.auths && s.calls <= t.calls
    && (forall rid :: rid in s.forms ==> rid in t.forms && t.forms[rid] == s.forms[rid])
    && (forall token :: token in s.born ==> token in t.born && t.born[token] == s.born[token])
    && forall rid :: rid in s.requests ==>
         rid in t.requests && (t.requests[rid] == s.requests[rid] || Follows(s.calls, s.requests[rid], t.requests[rid]))
  }

  lemma NothingMoves(s: State, t: State)
    requires t.requests == s.requests && t.calls == s.calls
    requires s.auths <= t.auths && t.forms == s.forms
    requires forall token :: token in s.born ==> token in t.born && t.born[token] == s.born[token]
    ensures Onward(s, t)
  {
  }

  lemma MovedMoves(s: State, rid: nat, r: Request, token: string)
    requires rid in s.requests && Follows(s.calls, s.requests[rid], r)
    ensures Onward(s, Moved(s, rid, r)) && Onward(s, TakeCode(s, rid, token, r))
    ensures Onward(s, TakeRefresh(s, rid, token, r))
  {
    hide Follows;
  }

  lemma ConsumingMoves(digest: Digest, s: State, rid: nat, client: Client, form: Form)
    requires rid in s.requests && (s.requests[rid].Received? || s.requests[rid].Cleared?)
    ensures form.grant.CodeGrant? ==> Onward(s, ConsumingCode(digest, s, rid, client, form))
    ensures form.grant.RefreshGrant? ==> Onward(s, ConsumingRefresh(s, rid, client, form))
    ensures form.grant.RefreshGrant? ==> Onward(s, Peeking(s, rid, client, form))
  {
    hide Moved, TakeCode, TakeRefresh, Onward;
    match form.grant
    case CodeGrant(code, _, _) =>
      var payload := Lookup(s.codes, code);
      MovedMoves(s, rid, Closed(UnknownCode), code);
      if payload.Some? { MovedMoves(s, rid, Redeemed(digest, client, form, payload.value), code); }
    case RefreshGrant(token, _) =>
      var payload := Lookup(s.refresh, token);
      MovedMoves(s, rid, Closed(UnknownRefresh), token);
      MovedMoves(s, rid, Cleared(client), token);
      if payload.Some? {
        MovedMoves(s, rid, Rotated(client, form, payload.value), token);
        MovedMoves(s, rid, AtGate(client, payload.value.tenant, None, ThenConsume), token);
      }
    case _ =>
  }

  lemma DispatchingMoves(digest: Digest, s: State, rid: nat, client: Client, form: Form)
    requires rid in s.requests && s.requests[rid].Received?
    ensures Onward(s, Dispatching(digest, s, rid, client, form))
  {
    hide Moved, Onward, ConsumingCode, Peeking;
    ConsumingMoves(digest, s, rid, client, form);
    MovedMoves(s, rid, CheckedService(client, form), "");
    MovedMoves(s, rid, Closed(UnsupportedGrant), "");
  }

  lemma CallingMoves(s: State, rid: nat, r: Request)
    requires rid in s.requests && s.requests[rid] == r && r.AtGate? && r.call.None?
    ensures Onward(s, Calling(s, rid, r.client, r.tenant, r.next))
  {
    hide GateRuns.Step;
  }

  lemma MintingMovesRequest(s: State, rid: nat, plan: Plan, call: nat, random: string)
    requires rid in s.requests && s.requests[rid].AtGate? && s.requests[rid].call.Some?
    requires Reissues(plan) ==> Fresh(s, random)
    ensures Onward(s, Minting(s, rid, plan, call, random))
  {
    hide Reissues;
  }

  lemma GatingMoves(s: State, rid: nat, r: Request, form: Form, random: string)
    requires rid in s.requests && s.requests[rid] == r && r.AtGate?
    ensures Onward(s, Gating(s, rid, r, form, random))
  {
    hide Moved, Minting, Calling, Onward, Reissues;
    NothingMoves(s, s);
    if r.call.None? {
      CallingMoves(s, rid, r);
    } else {
      MovedMoves(s, rid, Refusal(r.next, r.call.value), "");
      MovedMoves(s, rid, Cleared(r.client), "");
      if form.grant.ServiceGrant? {
        MovedMoves(s, rid, AtGate(r.client, r.tenant, None, ThenMint(ServicePlan(r.client, form))), "");
      }
      if r.next.ThenMint? && (Reissues(r.next.plan) ==> Fresh(s, random)) {
        MintingMovesRequest(s, rid, r.next.plan, r.call.value, random);
      }
    }
  }

  lemma AdvancingMoves(digest: Digest, s: State, rid: nat, random: string)
    ensures Onward(s, Advancing(digest, s, rid, random))
  {
    hide Dispatching, Gating, ConsumingRefresh, Onward;
    NothingMoves(s, s);
    if rid in s.requests && rid in s.forms {
      var form := s.forms[rid];
      match s.requests[rid]
      case Received(client) => DispatchingMoves(digest, s, rid, client, form);
      case AtGate(_, _, _, _) => GatingMoves(s, rid, s.requests[rid], form, random);
      case Cleared(client) => ConsumingMoves(digest, s, rid, client, form);
      case Closed(_) =>
    }
  }

  lemma IssuingMoves(s: State, p: AuthzParams, client: Client, scopes: seq<string>, ident: Ident, basis: Basis,
                     random: string)
    requires Fresh(s, random)
    ensures Onward(s, IssuedCode(s, p, client, scopes, ident, basis, random))
  {
    NothingMoves(s, IssuedCode(s, p, client, scopes, ident, basis, random));
  }

  lemma AuthorizingMoves(s: State, p: AuthzParams, ident: Ident, consentUp: bool, random: string)
    ensures Onward(s, Authorizing(s, p, ident, consentUp, random))
  {
    hide Resolve, Has, Onward, IssuedCode, Fresh;
    NothingMoves(s, s);
    var r := Resolve(s.clients, p);
    if r.Granted? && Fresh(s, random) {
      IssuingMoves(s, p, r.client, r.scopes, ident, TrustedClient, random);
      IssuingMoves(s, p, r.client, r.scopes, ident, RememberedConsent, random);
    }
  }

  lemma RememberingMoves(s: State, p: AuthzParams, client: Client, scopes: seq<string>, ident: Ident, random: string)
    requires Fresh(s, random)
    ensures Onward(s, IssuedCode(Remembering(s, client, scopes, ident), p, client, scopes, ident, ApprovedNow, random))
  {
    hide ConsentGranted;
    NothingMoves(s, IssuedCode(Remembering(s, client, scopes, ident), p, client, scopes, ident, ApprovedNow, random));
  }

  lemma DecidingMoves(s: State, p: AuthzParams, ident: Ident, approved: bool, remember: bool, consentUp: bool,
                      random: string)
    ensures Onward(s, Deciding(s, p, ident, approved, remember, consentUp, random))
  {
    hide Resolve, Onward, IssuedCode, Remembering, Fresh;
    NothingMoves(s, s);
    var r := Resolve(s.clients, p);
    if r.Granted? && Fresh(s, random) {
      IssuingMoves(s, p, r.client, r.scopes, ident, ApprovedNow, random);
      RememberingMoves(s, p, r.client, r.scopes, ident, random);
    }
  }

  lemma SubmittingMoves(digest: Digest, s: State, rid: nat, form: Form)
    requires RequestsOk(digest, s)
    ensures Onward(s, Submitting(s, rid, form))
  {
    hide RequestOk, Follows, ClientAuth, RequestsOk;
    if rid in s.requests { RequestClient(digest, s, rid); }
  }

  lemma EffectMoves(digest: Digest, s: State, e: Event)
    requires RequestsOk(digest, s)
    ensures Onward(s, Effect(digest, s, e))
  {
    hide Authorizing, Deciding, Submitting, Advancing, Onward, RequestsOk;
    match e
    case Authorize(p, ident, consentUp, random) => AuthorizingMoves(s, p, ident, consentUp, random);
    case Decide(p, ident, approved, remember, consentUp, random) =>
      DecidingMoves(s, p, ident, approved, remember, consentUp, random);
    case Submit(rid, form) => SubmittingMoves(digest, s, rid, form);
    case Advance(rid, random) => AdvancingMoves(digest, s, rid, random);
    case _ => OthersMoveNothing(digest, s, e);
  }

  lemma WithdrawingMoves(s: State, key: ConsentKey)
    ensures Onward(s, Withdrawing(s, key))
  {
    NothingMoves(s, Withdrawing(s, key));
  }

  lemma GateMovingMoves(s: State, ge: GateRuns.Event)
    ensures Onward(s, GateMoving(s, ge))
  {
    hide GateRuns.Step;
    NothingMoves(s, GateMoving(s, ge));
  }

  lemma OthersMoveNothing(digest: Digest, s: State, e: Event)
    requires !e.Authorize? && !e.Decide? && !e.Submit? && !e.Advance?
    ensures Onward(s, Effect(digest, s, e))
  {
    hide Onward, Authorizing, Deciding, Submitting, Advancing, GateMoving, Withdrawing;
    match e
    case Withdraw(key) => WithdrawingMoves(s, key);
    case Gate(ge) => GateMovingMoves(s, ge);
    case _ => NothingMoves(s, Effect(digest, s, e));
  }

  /** The request has not been to the gate for minting, or went there after `n` earlier calls. */
  predicate MintCallFrom(n: nat, r: Request) {
    match r
    case AtGate(_, _, call, next) => call.Some? && next.ThenMint? ==> n <= call.value
    case Closed(o) => o.RefusedAtMint? ==> n <= o.call
    case _ => true
  }

  lemma {:induction false} MintCallStaysFrom(digest: Digest, s: State, es: seq<Event>, rid: nat, n: nat)
    requires Inv(digest, s) && rid in s.requests && MintCallFrom(n, s.requests[rid]) && n <= s.calls
    ensures var t := RunFrom(digest, s, es); rid in t.requests && MintCallFrom(n, t.requests[rid]) && n <= t.calls
  {
    hide Inv, Effect;
    if es != [] {
      var before := RunFrom(digest, s, es[..|es| - 1]);
      MintCallStaysFrom(digest, s, es[..|es| - 1], rid, n);
      RunFromKeepsInv(digest, s, es[..|es| - 1]);
      RequestsAreOk(digest, before);
      EffectMoves(digest, before, es[|es| - 1]);
    }
  }

  lemma RequestsAreOk(digest: Digest, s: State)
    requires Inv(digest, s)
    ensures RequestsOk(digest, s)
  {
    hide ConsentOk, AuthsOk, ClientsOk, CodesOk, RefreshesOk, RequestsOk, TakenOk, MintsOk, LineageOk, GateOk;
  }

  // ---------------------------------------------------------------- losing a token

  /** A refresh request whose first look has admitted, and whose token is there to be consumed. */
  predicate Ready(s: State, rid: nat, token: string, tenant: string) {
    && rid in s.forms && s.forms[rid].grant.RefreshGrant? && s.forms[rid].grant.token == token
    && rid in s.requests && s.requests[rid].AtGate? && s.requests[rid].next.ThenConsume?
    && s.requests[rid].tenant == tenant && s.requests[rid].call.Some?
    && s.requests[rid].call.value in s.gate.done && s.gate.done[s.requests[rid].call.value].reply.admits
    && token != "" && token in s.refresh
    && s.refresh[token].clientId == s.requests[rid].client.id && s.refresh[token].tenant == tenant
  }

  /** The request has consumed the token and was then refused for its tenant. */
  predicate Lost(s: State, rid: nat, token: string) {
    && token in s.taken && s.taken[token] == rid && token !in s.refresh
    && rid in s.requests && s.requests[rid].Closed? && s.requests[rid].outcome.RefusedAtMint?
  }

  ghost predicate LosesBy(digest: Digest, s: State, es: seq<Event>, rid: nat, token: string, until: real) {
    RunFrom(digest, s, es).gate.now < until && Lost(RunFrom(digest, s, es), rid, token)
  }

  /** While the gate is quiet for the tenant the token is not lost. */
  lemma QuietLosesNothing(digest: Digest, s: State, es: seq<Event>, rid: nat, token: string, tenant: string,
                          until: real)
    requires Inv(digest, s) && Ready(s, rid, token, tenant) && GateRuns.Quiet(s.gate, tenant, until)
    ensures !LosesBy(digest, s, es, rid, token, until)
  {
    hide RunFrom, GateRuns.Quiet, Inv;
    var t := RunFrom(digest, s, es);
    if LosesBy(digest, s, es, rid, token, until) {
      MintCallStaysFrom(digest, s, es, rid, s.calls);
      var call := t.requests[rid].outcome.call;
      RunFromKeepsInv(digest, s, es);
      MintRefusal(digest, s, es, rid, token, tenant, call);
      NoLossBeforeDeadline(digest, s, es, tenant, until, rid, call);
    }
  }

  /** The call that refused the mint was made since, for the token's tenant. */
  lemma MintRefusal(digest: Digest, s: State, es: seq<Event>, rid: nat, token: string, tenant: string, call: nat)
    requires Inv(digest, s) && Inv(digest, RunFrom(digest, s, es)) && Ready(s, rid, token, tenant) && s.calls <= call
    requires var t := RunFrom(digest, s, es); rid in t.requests && t.requests[rid] == Closed(RefusedAtMint(call))
    ensures var t := RunFrom(digest, s, es);
            call !in s.gate.done && call in t.gate.done && t.gate.done[call].tenant == tenant
  {
    hide RunFrom, GateRuns.Inv, LineageOk, MintsOk, CodesOk, TakenOk, ConsentOk, PlanOk;
    var t := RunFrom(digest, s, es);
    RecordsOnlyGrow(digest, s, es);
    assert RequestOk(digest, t, rid, t.requests[rid]);
    assert RefreshOk(s, token, s.refresh[token]);
  }

  /** What a run never takes back. */
  lemma {:induction false} RecordsOnlyGrow(digest: Digest, s: State, es: seq<Event>)
    requires Inv(digest, s)
    ensures var t := RunFrom(digest, s, es);
            && s.auths <= t.auths
            && (forall rid :: rid in s.forms ==> rid in t.forms && t.forms[rid] == s.forms[rid])
            && (forall token :: token in s.born ==> token in t.born && t.born[token] == s.born[token])
  {
    hide Inv, Effect;
    if es != [] {
      var before := RunFrom(digest, s, es[..|es| - 1]);
      RecordsOnlyGrow(digest, s, es[..|es| - 1]);
      RunFromKeepsInv(digest, s, es[..|es| - 1]);
      RequestsAreOk(digest, before);
      EffectMoves(digest, before, es[|es| - 1]);
    }
  }

  // ---------------------------------------------------------------- how a token is lost

  lemma {:induction false} RunFromAppend(digest: Digest, s: State, a: seq<Event>, b: seq<Event>)
    ensures RunFrom(digest, s, a + b) == RunFrom(digest, RunFrom(digest, s, a), b)
  {
    hide Step;
    if b == [] {
      assert a + b == a;
    } else {
      assert (a + b)[..|a + b| - 1] == a + b[..|b| - 1];
      RunFromAppend(digest, s, a, b[..|b| - 1]);
    }
  }

  lemma OneEvent(digest: Digest, s: State, e: Event)
    ensures RunFrom(digest, s, [e]) == Step(digest, s, e)
  {
    hide Step;
    assert [e][..0] == [];
  }

  lemma TwoEvents(digest: Digest, s: State, a: Event, b: Event)
    ensures RunFrom(digest, s, [a, b]) == Step(digest, Step(digest, s, a), b)
  {
    hide Step;
    OneEvent(digest, s, a);
    assert [a, b][..1] == [a];
  }

  lemma FourEvents(digest: Digest, s: State, a: Event, b: Event, c: Event, d: Event)
    ensures RunFrom(digest, s, [a, b, c, d]) == Step(digest, Step(digest, Step(digest, Step(digest, s, a), b), c), d)
  {
    hide Step;
    TwoEvents(digest, s, a, b);
    TwoEvents(digest, Step(digest, Step(digest, s, a), b), c, d);
    RunFromAppend(digest, s, [a, b], [c, d]);
    assert [a, b] + [c, d] == [a, b, c, d];
  }

  function Lifted(es: seq<GateRuns.Event>): seq<Event> {
    if es == [] then [] else Lifted(es[..|es| - 1]) + [Gate(es[|es| - 1])]
  }

  /** Gate events alone move nothing but the gate. */
  lemma {:induction false} GateOnly(digest: Digest, s: State, es: seq<GateRuns.Event>)
    requires forall e :: e in es ==> !e.Begin?
    ensures RunFrom(digest, s, Lifted(es)) == s.(gate := GateRuns.RunFrom(s.gate, es), time := s.time + |es|)
  {
    hide GateRuns.Step;
    if es != [] {
      var rest, last := es[..|es| - 1], es[|es| - 1];
      assert last in es;
      GateOnly(digest, s, rest);
      var t := Lifted(es);
      assert t[..|t| - 1] == Lifted(rest);
    }
  }

  lemma AdvancesPast(digest: Digest, s: State, rid: nat, client: Client, tenant: string, call: nat)
    requires rid in s.forms && rid in s.requests && s.requests[rid] == AtGate(client, tenant, Some(call), ThenConsume)
    requires call in s.gate.done && s.gate.done[call].reply.admits
    ensures Step(digest, s, Advance(rid, "")) == s.(requests := s.requests[rid := Cleared(client)], time := s.time + 1)
  {
  }

  lemma AdvancesConsuming(digest: Digest, s: State, rid: nat, client: Client)
    requires rid in s.forms && s.forms[rid].grant.RefreshGrant?
    requires rid in s.requests && s.requests[rid] == Cleared(client)
    requires var token := s.forms[rid].grant.token;
             token != "" && token in s.refresh && s.refresh[token].clientId == client.id
    ensures var token := s.forms[rid].grant.token;
            Step(digest, s, Advance(rid, "")) ==
              TakeRefresh(s, rid, token, AtGate(client, s.refresh[token].tenant, None,
                                                ThenMint(RotationPlan(client, s.forms[rid], s.refresh[token]))))
              .(time := s.time + 1)
  {
    hide RotationPlan;
  }

  lemma AdvancesCalling(digest: Digest, s: State, rid: nat, client: Client, tenant: string, next: Next)
    requires rid in s.forms && rid in s.requests && s.requests[rid] == AtGate(client, tenant, None, next)
    ensures Step(digest, s, Advance(rid, "")) ==
              s.(requests := s.requests[rid := AtGate(client, tenant, Some(s.calls), next)],
                 gate := GateRuns.Step(s.gate, GateRuns.Begin(s.calls, tenant)),
                 calls := s.calls + 1, time := s.time + 1)
  {
    hide GateRuns.Step;
  }

  lemma AdvancesRefused(digest: Digest, s: State, rid: nat, client: Client, tenant: string, call: nat, plan: Plan)
    requires rid in s.forms && rid in s.requests
    requires s.requests[rid] == AtGate(client, tenant, Some(call), ThenMint(plan))
    requires call in s.gate.done && !s.gate.done[call].reply.admits
    ensures Step(digest, s, Advance(rid, "")) ==
              s.(requests := s.requests[rid := Closed(RefusedAtMint(call))], time := s.time + 1)
  {
  }

  /** A whole gate call for a request at the gate. */
  function Calls(rid: nat, n: nat): seq<Event> {
    [Advance(rid, ""), Gate(GateRuns.Probe(n)), Gate(GateRuns.Ask(n)), Gate(GateRuns.Store(n))]
  }

  /** Alone, it moves that request and the gate, and nothing else. */
  lemma CallsAlone(digest: Digest, s: State, rid: nat, client: Client, tenant: string, next: Next)
    requires rid in s.forms && rid in s.requests && s.requests[rid] == AtGate(client, tenant, None, next)
    ensures var n := s.calls;
            RunFrom(digest, s, Calls(rid, n))
            == s.(requests := s.requests[rid := AtGate(client, tenant, Some(n), next)], calls := n + 1,
                  time := s.time + 4,
                  gate := GateRuns.RunFrom(s.gate, [GateRuns.Begin(n, tenant), GateRuns.Probe(n), GateRuns.Ask(n),
                                                    GateRuns.Store(n)]))
  {
    hide GateRuns.Step, GateRuns.RunFrom, RunFrom, Step;
    var n := s.calls;
    FourEvents(digest, s, Advance(rid, ""), Gate(GateRuns.Probe(n)), Gate(GateRuns.Ask(n)), Gate(GateRuns.Store(n)));
    GateRuns.FourSteps(s.gate, GateRuns.Begin(n, tenant), GateRuns.Probe(n), GateRuns.Ask(n), GateRuns.Store(n));
    AdvancesCalling(digest, s, rid, client, tenant, next);
    var a := Step(digest, s, Advance(rid, ""));
    GateEvent(digest, a, GateRuns.Probe(n));
    var b := Step(digest, a, Gate(GateRuns.Probe(n)));
    GateEvent(digest, b, GateRuns.Ask(n));
    GateEvent(digest, Step(digest, b, Gate(GateRuns.Ask(n))), GateRuns.Store(n));
  }

  lemma GateEvent(digest: Digest, s: State, e: GateRuns.Event)
    requires !e.Begin?
    ensures Step(digest, s, Gate(e)) == s.(gate := GateRuns.Step(s.gate, e), time := s.time + 1)
  {
    hide GateRuns.Step;
  }

  /** Where the gate is cold, a request that is ready loses its token. */
  lemma ColdLoses(digest: Digest, s: State, rid: nat, token: string, tenant: string) returns (es: seq<Event>)
    requires GateOk(s.gate, s.calls) && Ready(s, rid, token, tenant) && GateRuns.Cold(s.gate, tenant)
    ensures RunFrom(digest, s, es).gate.now == s.gate.now && Lost(RunFrom(digest, s, es), rid, token)
  {
    hide Step, RunFrom, GateRuns.RunFrom, GateRuns.Cold, GateRuns.Inv, RotationPlan;
    var client, form, n := s.requests[rid].client, s.forms[rid], s.calls;
    var call := [Advance(rid, ""), Gate(GateRuns.Probe(n)), Gate(GateRuns.Ask(n)), Gate(GateRuns.Store(n))];
    TwoEvents(digest, s, Advance(rid, ""), Advance(rid, ""));
    AdvancesPast(digest, s, rid, client, tenant, s.requests[rid].call.value);
    AdvancesConsuming(digest, Step(digest, s, Advance(rid, "")), rid, client);
    var t := RunFrom(digest, s, [Advance(rid, ""), Advance(rid, "")]);
    var plan := RotationPlan(client, form, s.refresh[token]);
    assert t.requests[rid] == AtGate(client, tenant, None, ThenMint(plan));
    CallsAlone(digest, t, rid, client, tenant, ThenMint(plan));
    GateRuns.ColdRefuses(s.gate, tenant, n);
    var u := RunFrom(digest, t, call);
    OneEvent(digest, u, Advance(rid, ""));
    AdvancesRefused(digest, u, rid, client, tenant, n, plan);
    RunFromAppend(digest, s, [Advance(rid, ""), Advance(rid, "")], call);
    RunFromAppend(digest, s, [Advance(rid, ""), Advance(rid, "")] + call, [Advance(rid, "")]);
    es := [Advance(rid, ""), Advance(rid, "")] + call + [Advance(rid, "")];
  }

  lemma SpoilingLoses(digest: Digest, s: State, rid: nat, token: string, tenant: string, until: real, bad: nat)
    returns (es: seq<Event>)
    requires Inv(digest, s) && Ready(s, rid, token, tenant) && s.gate.now < until
    requires bad in s.gate.pending && s.gate.pending[bad].tenant == tenant
    requires !GateRuns.Harmless(s.gate.pending[bad], until)
    ensures LosesBy(digest, s, es, rid, token, until)
  {
    hide RunFrom, GateRuns.RunFrom, GateRuns.Cold, GateRuns.Inv, GateRuns.Harmless, ConsentOk, AuthsOk, ClientsOk,
          CodesOk,
         RefreshesOk, RequestsOk, TakenOk, MintsOk, LineageOk;
    GateRuns.ReadInThePast(s.gate, bad);
    var spoil := GateRuns.Spoils(s.gate, tenant, until, bad);
    GateOnly(digest, s, spoil);
    var t := RunFrom(digest, s, Lifted(spoil));
    RunFromKeepsInv(digest, s, Lifted(spoil));
    RepliesStay(s.gate, spoil, s.requests[rid].call.value);
    var rest := ColdLoses(digest, t, rid, token, tenant);
    es := Lifted(spoil) + rest;
    RunFromAppend(digest, s, Lifted(spoil), rest);
  }

  lemma {:induction false} RepliesStay(gate: GateRuns.State, es: seq<GateRuns.Event>, call: nat)
    requires GateRuns.Inv(gate) && call in gate.done
    ensures GateRuns.Inv(GateRuns.RunFrom(gate, es))
    ensures call in GateRuns.RunFrom(gate, es).done && GateRuns.RunFrom(gate, es).done[call] == gate.done[call]
  {
    hide GateRuns.Step, GateRuns.Inv;
    if es != [] {
      var before := GateRuns.RunFrom(gate, es[..|es| - 1]);
      RepliesStay(gate, es[..|es| - 1], call);
      GateRuns.StepKeepsInv(before, es[|es| - 1]);
      NoneBothPendingAndDone(before);
      GateRuns.StepKeepsCall(before, es[|es| - 1], call);
    }
  }

  /** Exactly when: a request whose first look has admitted, the cache admitting its tenant until
      `until`, can lose its token before `until` exactly if some call for the tenant is under
      way, past its look at the cache, that does not bring an admission lasting as long. */
  lemma LossIff(digest: Digest, s: State, rid: nat, token: string, tenant: string, until: real)
    requires Inv(digest, s) && Ready(s, rid, token, tenant) && s.gate.now < until
    requires tenant in s.gate.cache && s.gate.cache[tenant].admits && until <= s.gate.cache[tenant].deadline
    ensures (exists es :: LosesBy(digest, s, es, rid, token, until))
            <==> exists bad :: bad in s.gate.pending && s.gate.pending[bad].tenant == tenant
                               && !GateRuns.Harmless(s.gate.pending[bad], until)
  {
    hide Inv, Ready, LosesBy, GateRuns.Harmless;
    var calls := s.gate.pending;
    if forall id :: id in calls && calls[id].tenant == tenant ==> GateRuns.Harmless(calls[id], until) {
      forall es ensures !LosesBy(digest, s, es, rid, token, until) {
        QuietLosesNothing(digest, s, es, rid, token, tenant, until);
      }
    } else {
      var bad :| bad in calls && calls[bad].tenant == tenant && !GateRuns.Harmless(calls[bad], until);
      var es := SpoilingLoses(digest, s, rid, token, tenant, until, bad);
    }
  }
}
