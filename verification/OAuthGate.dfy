/** The tenant gate inside the OAuth machine: the gate's own bounds carry over to all three
    grants, and a token is lost to a refusal only when the gate's answer changed in between. */
module OAuthGate {
  import opened Text
  import opened OAuth
  import opened OAuthMachine
  import opened OAuthInvariant
  import opened OAuthSteps
  import opened OAuthRuns
  import opened OAuthTheorems
  import GateRuns
  import TenantGate

  function NotLiveSince(gate: GateRuns.State, tenant: string): Option<real> {
    if TenantGate.Verdict(GateRuns.Registered(gate.registry, tenant)) then None
    else Some(GateRuns.Since(gate.since, tenant))
  }

  /** No grant of any kind mints for a tenant on the strength of a gate call that read its
      clock 60 seconds or more after the tenant stopped being live. */
  lemma NothingMintedOnceNotLive(digest: Digest, configured: bool, es: seq<Event>, i: nat)
    requires i < |Run(digest, configured, es).minted|
    ensures var s := Run(digest, configured, es);
            var m := s.minted[i];
            var since := NotLiveSince(s.gate, m.plan.tenant);
            && m.call in s.gate.done && s.gate.done[m.call].tenant == m.plan.tenant && s.gate.done[m.call].reply.admits
            && (since.Some? ==> s.gate.done[m.call].readAt < since.value + TenantGate.ADMIT_TTL)
  {
    hide Run, PlanOk, TenantGate.Verdict, GateRuns.Inv;
    RunKeepsInv(digest, configured, es);
    var s := Run(digest, configured, es);
    var m := s.minted[i];
    assert MintOk(digest, s, i, m);
    if !TenantGate.Verdict(GateRuns.Registered(s.gate.registry, m.plan.tenant))
       && s.gate.done[m.call].readAt >= GateRuns.Since(s.gate.since, m.plan.tenant) + TenantGate.ADMIT_TTL {
      GateRuns.RefusedOnceNotLive(s.gate, m.call);
    }
  }

  predicate RefusedFor(r: Request, call: nat) {
    r == Closed(RefusedBefore(call)) || r == Closed(RefusedAtMint(call))
  }

  /** No token request is refused for its tenant once the registry has answered live for 10
      seconds. */
  lemma NoneRefusedOnceLive(digest: Digest, configured: bool, es: seq<Event>, rid: nat, call: nat)
    requires rid in Run(digest, configured, es).requests && RefusedFor(Run(digest, configured, es).requests[rid], call)
    ensures var s := Run(digest, configured, es);
            && call in s.gate.done
            && var d := s.gate.done[call];
               configured && d.tenant != "" && NotLiveSince(s.gate, d.tenant) == None ==>
                 d.readAt < GateRuns.Since(s.gate.since, d.tenant) + TenantGate.REFUSE_TTL
  {
    hide Run, PlanOk, TenantGate.Verdict, GateRuns.Inv;
    RunKeepsInv(digest, configured, es);
    ConfiguredStays(digest, configured, es);
    var s := Run(digest, configured, es);
    assert RequestOk(digest, s, rid, s.requests[rid]);
    var d := s.gate.done[call];
    if configured && d.tenant != "" && NotLiveSince(s.gate, d.tenant) == None
       && d.readAt >= GateRuns.Since(s.gate.since, d.tenant) + TenantGate.REFUSE_TTL {
      GateRuns.AdmittedOnceLive(s.gate, call);
    }
  }

  // ---------------------------------------------------------------- the gate's own run

  /** What an event of the machine is to the gate; nothing is a tick of no length. */
  function GateEvent(s: State, e: Event): GateRuns.Event {
    match e
    case Gate(ge) => if ge.Begin? then GateRuns.Tick(0.0) else ge
    case Advance(rid, _) =>
      if rid in s.requests && rid in s.forms && s.requests[rid].AtGate? && s.requests[rid].call.None?
      then GateRuns.Begin(s.calls, s.requests[rid].tenant) else GateRuns.Tick(0.0)
    case _ => GateRuns.Tick(0.0)
  }

  function Trace(digest: Digest, s: State, es: seq<Event>): seq<GateRuns.Event> {
    if es == [] then []
    else
      var before := es[..|es| - 1];
      Trace(digest, s, before) + [GateEvent(RunFrom(digest, s, before), es[|es| - 1])]
  }

  predicate GateMoves(s: State, t: State, ge: GateRuns.Event) {
    t.gate == GateRuns.Step(s.gate, ge)
  }

  lemma GateRests(s: State, t: State)
    requires t.gate == s.gate
    ensures GateMoves(s, t, GateRuns.Tick(0.0))
  {
  }

  lemma MovedGate(s: State, rid: nat, r: Request, token: string)
    ensures Moved(s, rid, r).gate == s.gate && TakeCode(s, rid, token, r).gate == s.gate
    ensures TakeRefresh(s, rid, token, r).gate == s.gate
  {
  }

  lemma MintingGate(s: State, rid: nat, plan: Plan, call: nat, random: string)
    ensures Minting(s, rid, plan, call, random).gate == s.gate
  {
    hide Reissues;
  }

  lemma ConsumingGate(digest: Digest, s: State, rid: nat, client: Client, form: Form)
    ensures form.grant.CodeGrant? ==> ConsumingCode(digest, s, rid, client, form).gate == s.gate
    ensures form.grant.RefreshGrant? ==> ConsumingRefresh(s, rid, client, form).gate == s.gate
    ensures form.grant.RefreshGrant? ==> Peeking(s, rid, client, form).gate == s.gate
  {
    hide Moved, TakeCode, TakeRefresh, Redeemed, Rotated;
    match form.grant
    case CodeGrant(code, _, _) =>
      var payload := Lookup(s.codes, code);
      MovedGate(s, rid, Closed(UnknownCode), code);
      if payload.Some? { MovedGate(s, rid, Redeemed(digest, client, form, payload.value), code); }
    case RefreshGrant(token, _) =>
      var payload := Lookup(s.refresh, token);
      MovedGate(s, rid, Closed(UnknownRefresh), token);
      MovedGate(s, rid, Cleared(client), token);
      if payload.Some? {
        MovedGate(s, rid, Rotated(client, form, payload.value), token);
        MovedGate(s, rid, AtGate(client, payload.value.tenant, None, ThenConsume), token);
      }
    case _ =>
  }

  lemma DispatchingGate(digest: Digest, s: State, rid: nat, client: Client, form: Form)
    ensures Dispatching(digest, s, rid, client, form).gate == s.gate
  {
    hide Moved, ConsumingCode, Peeking;
    ConsumingGate(digest, s, rid, client, form);
    MovedGate(s, rid, CheckedService(client, form), "");
    MovedGate(s, rid, Closed(UnsupportedGrant), "");
  }

  lemma CallingGate(s: State, rid: nat, client: Client, tenant: string, next: Next)
    ensures Calling(s, rid, client, tenant, next).gate == GateRuns.Step(s.gate, GateRuns.Begin(s.calls, tenant))
  {
    hide GateRuns.Step;
  }

  lemma GatingGate(s: State, rid: nat, r: Request, form: Form, random: string)
    requires r.AtGate?
    ensures Gating(s, rid, r, form, random).gate ==
              if r.call.None? then GateRuns.Step(s.gate, GateRuns.Begin(s.calls, r.tenant)) else s.gate
  {
    hide Moved, Minting, Calling, Reissues, Refusal, ServicePlan, GateRuns.Step;
    CallingGate(s, rid, r.client, r.tenant, r.next);
    MovedGate(s, rid, Cleared(r.client), "");
    if form.grant.ServiceGrant? {
      MovedGate(s, rid, AtGate(r.client, r.tenant, None, ThenMint(ServicePlan(r.client, form))), "");
    }
    if r.call.Some? {
      MovedGate(s, rid, Refusal(r.next, r.call.value), "");
      if r.next.ThenMint? { MintingGate(s, rid, r.next.plan, r.call.value, random); }
    }
  }

  lemma AdvancingGate(digest: Digest, s: State, rid: nat, random: string)
    ensures GateMoves(s, Advancing(digest, s, rid, random), GateEvent(s, Advance(rid, random)))
  {
    hide Dispatching, Gating, ConsumingRefresh, GateMoves;
    if rid in s.requests && rid in s.forms {
      var r, form := s.requests[rid], s.forms[rid];
      match r
      case Received(client) =>
        DispatchingGate(digest, s, rid, client, form);
        GateRests(s, Dispatching(digest, s, rid, client, form));
      case AtGate(_, _, _, _) => GatingMovesGate(s, rid, r, form, random);
      case Cleared(client) =>
        ConsumingGate(digest, s, rid, client, form);
        if form.grant.RefreshGrant? { GateRests(s, ConsumingRefresh(s, rid, client, form)); } else { GateRests(s, s); }
      case Closed(_) => GateRests(s, s);
    } else {
      GateRests(s, s);
    }
  }

  lemma GatingMovesGate(s: State, rid: nat, r: Request, form: Form, random: string)
    requires rid in s.requests && rid in s.forms && s.requests[rid] == r && r.AtGate?
    ensures GateMoves(s, Gating(s, rid, r, form, random), GateEvent(s, Advance(rid, random)))
  {
    hide Gating, GateRuns.Step;
    GatingGate(s, rid, r, form, random);
    if r.call.Some? { GateRests(s, Gating(s, rid, r, form, random)); }
  }

  lemma AuthorizingGate(s: State, p: AuthzParams, ident: Ident, consentUp: bool, random: string)
    ensures Authorizing(s, p, ident, consentUp, random).gate == s.gate
  {
    hide Resolve, Has;
  }

  lemma DecidingGate(s: State, p: AuthzParams, ident: Ident, approved: bool, remember: bool, consentUp: bool,
                     random: string)
    ensures Deciding(s, p, ident, approved, remember, consentUp, random).gate == s.gate
  {
    hide Resolve, ConsentGranted;
  }

  lemma SubmittingGate(s: State, rid: nat, form: Form)
    ensures Submitting(s, rid, form).gate == s.gate
  {
  }

  lemma GateMovingGate(s: State, ge: GateRuns.Event)
    ensures GateMoves(s, GateMoving(s, ge), GateEvent(s, Gate(ge)))
  {
    hide GateRuns.Step;
    if ge.Begin? { GateRests(s, s); }
  }

  lemma StepMovesGate(digest: Digest, s: State, e: Event)
    ensures GateMoves(s, Step(digest, s, e), GateEvent(s, e))
  {
    hide Authorizing, Deciding, Submitting, GateMoving, Advancing, GateRuns.Step;
    match e
    case Authorize(p, ident, consentUp, random) =>
      AuthorizingGate(s, p, ident, consentUp, random);
      GateRests(s, Step(digest, s, e));
    case Decide(p, ident, approved, remember, consentUp, random) =>
      DecidingGate(s, p, ident, approved, remember, consentUp, random);
      GateRests(s, Step(digest, s, e));
    case Submit(rid, form) =>
      SubmittingGate(s, rid, form);
      GateRests(s, Step(digest, s, e));
    case Advance(rid, random) => AdvancingGate(digest, s, rid, random);
    case Gate(ge) => GateMovingGate(s, ge);
    case _ => GateRests(s, Step(digest, s, e));
  }

  /** The gate inside the machine goes through a run of the gate alone, so whatever holds of
      every run of the gate holds here. */
  lemma {:induction false} GateRunsAlone(digest: Digest, s: State, es: seq<Event>)
    ensures RunFrom(digest, s, es).gate == GateRuns.RunFrom(s.gate, Trace(digest, s, es))
  {
    hide Step, GateRuns.Step, GateEvent;
    if es != [] {
      var before := es[..|es| - 1];
      GateRunsAlone(digest, s, before);
      StepMovesGate(digest, RunFrom(digest, s, before), es[|es| - 1]);
      var trace := Trace(digest, s, es);
      assert trace[..|trace| - 1] == Trace(digest, s, before);
    }
  }

  lemma {:induction false} ConfiguredStays(digest: Digest, configured: bool, es: seq<Event>)
    ensures Run(digest, configured, es).gate.configured == configured
  {
    hide Step;
    if es != [] {
      var before := es[..|es| - 1];
      ConfiguredStays(digest, configured, before);
      var s := Run(digest, configured, before);
      StepMovesGate(digest, s, es[|es| - 1]);
      GateRuns.StepFrame(s.gate, GateEvent(s, es[|es| - 1]));
    }
  }

  // ---------------------------------------------------------------- refusals and lost tokens

  /** A request refused by the check before consuming has consumed nothing. */
  lemma EarlyRefusalTakesNothing(digest: Digest, configured: bool, es: seq<Event>, rid: nat, call: nat)
    requires var s := Run(digest, configured, es); rid in s.requests && s.requests[rid] == Closed(RefusedBefore(call))
    ensures forall token :: token in Run(digest, configured, es).taken ==>
            Run(digest, configured, es).taken[token] != rid
  {
    hide Run, ClientsOk, ConsentOk, AuthsOk, CodesOk, RefreshesOk, RequestsOk, MintsOk, LineageOk, GateOk;
    RunKeepsInv(digest, configured, es);
  }

  /** From a quiet moment at which the cache admits a tenant until `until`, and while the gate's
      clock is below that, no request is refused at the mint with its token already consumed:
      a token can be lost only if the deadline falls between the two looks. */
  lemma NoLossBeforeDeadline(digest: Digest, s: State, es: seq<Event>, tenant: string, until: real, rid: nat, call: nat)
    requires Inv(digest, s) && GateRuns.Quiet(s.gate, tenant, until)
    requires var t := RunFrom(digest, s, es);
             && t.gate.now < until
             && call !in s.gate.done && call in t.gate.done && t.gate.done[call].tenant == tenant
    ensures var t := RunFrom(digest, s, es);
            && t.gate.done[call].reply.admits
            && (rid in t.requests ==> !RefusedFor(t.requests[rid], call))
  {
    hide RunFrom, Trace, GateRuns.RunFrom, GateRuns.Quiet, GateRuns.Inv, PlanOk, CodesOk, RefreshesOk, MintsOk,
          LineageOk, AuthsOk;
    GateRunsAlone(digest, s, es);
    GateRuns.QuietAdmits(s.gate, Trace(digest, s, es), tenant, until, call);
    RunFromKeepsInv(digest, s, es);
    var t := RunFrom(digest, s, es);
    if rid in t.requests { assert RequestOk(digest, t, rid, t.requests[rid]); }
  }
}
