/** Every step of the OAuth machine keeps its invariant. */
module OAuthSteps {
  import opened Text
  import opened OAuth
  import opened OAuthMachine
  import opened OAuthInvariant
  import GateRuns

  // ---------------------------------------------------------------- lineages under a step

  /** At most one holder changes place: what `from` held is gone, and what `to` holds now
      either came from there or starts a new lineage. */
  ghost predicate Shifts(s: State, t: State, from: Option<Holder>, to: Option<Holder>) {
    && (forall h :: to != Some(h) ==> HeldBy(t, h) == if from == Some(h) then None else HeldBy(s, h))
    && (to.Some? && HeldBy(t, to.value).Some? ==>
          || (from.Some? && HeldBy(s, from.value).Some?
              && HeldBy(t, to.value).value.origin == HeldBy(s, from.value).value.origin
              && Subset(HeldBy(t, to.value).value.words, HeldBy(s, from.value).value.words))
          || (|s.auths| < |t.auths| && HeldBy(t, to.value).value.origin == |s.auths|))
  }

  /** Every access token a user has descends from an authorization on record. */
  predicate MintOrigins(s: State) {
    forall i :: 0 <= i < |s.minted| && !s.minted[i].plan.source.ForService? ==>
          s.minted[i].plan.source.origin < |s.auths|
  }

  lemma MintsHaveOrigins(digest: Digest, s: State)
    requires MintsOk(digest, s)
    ensures MintOrigins(s)
  {
  }

  lemma ShiftKeepsLineage(s: State, t: State, from: Option<Holder>, to: Option<Holder>)
    requires LineageOk(s) && MintOrigins(s) && Shifts(s, t, from, to)
    requires t.minted == s.minted && |s.auths| <= |t.auths|
    ensures LineageOk(t)
  {
    hide HeldBy;
  }

  /** A mint spends what its request had in hand, and may hand it on as a refresh token. */
  lemma MintKeepsLineage(s: State, t: State, rid: nat, plan: Plan, call: nat, to: Option<Holder>)
    requires LineageOk(s) && MintOrigins(s) && Shifts(s, t, Some(InHand(rid)), to)
    requires t.minted == s.minted + [Minted(plan, rid, call)] && t.auths == s.auths
    requires HeldBy(s, InHand(rid))
             == if plan.source.ForService? then None else Some(Held(plan.source.origin, Split(plan.scope)))
    requires to.Some? ==> OFFLINE_ACCESS in Split(plan.scope) && !plan.source.ForService?
    ensures LineageOk(t)
  {
    hide HeldBy;
  }

  // ---------------------------------------------------------------- what was fine stays fine

  predicate SameRequest(s: State, t: State, rid: nat) {
    rid in s.requests && rid in t.requests && t.requests[rid] == s.requests[rid]
  }

  predicate MintsServed(s: State) {
    forall i :: 0 <= i < |s.minted| ==>
          s.minted[i].rid in s.requests && s.requests[s.minted[i].rid] == Closed(Served(i))
  }

  lemma MintsAreServed(digest: Digest, s: State)
    requires MintsOk(digest, s)
    ensures MintsServed(s)
  {
    hide PlanOk;
  }

  predicate NoneTaken(s: State) {
    && (forall token :: token in s.codes ==> token !in s.taken)
    && (forall token :: token in s.refresh ==> token !in s.taken)
  }

  lemma LiveAreNotTaken(s: State)
    requires CodesOk(s) && RefreshesOk(s)
    ensures NoneTaken(s)
  {
  }

  ghost predicate OldStillOk(digest: Digest, s: State, t: State) {
    && MintsServed(s)
    && NoneTaken(s)
    && (forall token :: token in s.codes && token !in t.taken ==> CodeOk(t, token, s.codes[token]))
    && (forall token :: token in s.refresh && token !in t.taken ==> RefreshOk(t, token, s.refresh[token]))
    && (forall rid :: rid in s.requests ==> RequestOk(digest, t, rid, s.requests[rid]))
    && (forall i :: 0 <= i < |s.minted| && SameRequest(s, t, s.minted[i].rid) ==> MintOk(digest, t, i, s.minted[i]))
  }

  lemma OldStaysOk(digest: Digest, s: State, t: State)
    requires CodesOk(s) && RefreshesOk(s) && RequestsOk(digest, s) && MintsOk(digest, s) && Extends(s, t)
    ensures OldStillOk(digest, s, t)
  {
    hide CodeOk, RefreshOk, RequestOk, MintOk, Extends;
    MintsAreServed(digest, s);
    LiveAreNotTaken(s);
    forall token | token in s.codes && token !in t.taken ensures CodeOk(t, token, s.codes[token]) {
      CodeStaysOk(s, t, token, s.codes[token]);
    }
    forall token | token in s.refresh && token !in t.taken ensures RefreshOk(t, token, s.refresh[token]) {
      RefreshStaysOk(s, t, token, s.refresh[token]);
    }
    forall rid | rid in s.requests ensures RequestOk(digest, t, rid, s.requests[rid]) {
      RequestStaysOk(digest, s, t, rid, s.requests[rid]);
    }
    forall i | 0 <= i < |s.minted| && SameRequest(s, t, s.minted[i].rid) ensures MintOk(digest, t, i, s.minted[i]) {
      MintStaysOk(digest, s, t, i, s.minted[i]);
    }
  }

  lemma SameGateExtends(s: State, t: State)
    requires s.auths <= t.auths && s.minted <= t.minted && s.calls <= t.calls && t.gate == s.gate
    requires forall k :: k in s.born ==> k in t.born && t.born[k] == s.born[k]
    requires forall k :: k in s.taken ==> k in t.taken && t.taken[k] == s.taken[k]
    requires forall k :: k in s.forms ==> k in t.forms && t.forms[k] == s.forms[k]
    ensures Extends(s, t)
  {
  }

  // ---------------------------------------------------------------- consent, clients, expiry

  /** The parts of the invariant that do not look at consent. */
  ghost predicate Tokens(digest: Digest, s: State) {
    && CodesOk(s) && RefreshesOk(s) && RequestsOk(digest, s) && TakenOk(s) && MintsOk(digest, s) && LineageOk(s)
    && GateOk(s.gate, s.calls)
  }

  lemma TokensKept(digest: Digest, s: State, t: State)
    requires Tokens(digest, s)
    requires t == s.(clients := t.clients, consent := t.consent, log := t.log, time := t.time)
    ensures Tokens(digest, t)
  {
    hide CodeOk, RefreshOk, RequestOk, MintOk, LineageOk, Extends, Consumed, GateOk;
    SameGateExtends(s, t);
    OldStaysOk(digest, s, t);
    ShiftKept(digest, s, t);
  }

  lemma ShiftKept(digest: Digest, s: State, t: State)
    requires LineageOk(s) && MintsOk(digest, s)
    requires t.codes == s.codes && t.refresh == s.refresh && t.requests == s.requests && t.minted == s.minted
    requires t.auths == s.auths
    ensures LineageOk(t)
  {
    hide OneHolder, HoldersFollow, MintsFollow, MintOk;
    MintsHaveOrigins(digest, s);
    ShiftKeepsLineage(s, t, None, None);
  }

  lemma ConsentRemembered(s: State, client: Client, scopes: seq<string>, ident: Ident)
    requires ConsentOk(s.consent, s.log)
    ensures var t := Remembering(s, client, scopes, ident); ConsentOk(t.consent, t.log)
  {
    hide Norm;
    var t := Remembering(s, client, scopes, ident);
    assert t.log[..|t.log| - 1] == s.log;
    forall key ensures Stored(t.consent, key) == Standing(t.log, key) {
      assert Stored(s.consent, key) == Standing(s.log, key);
    }
  }

  lemma ConsentWithdrawn(s: State, key: ConsentKey)
    requires ConsentOk(s.consent, s.log)
    ensures var t := Withdrawing(s, key); ConsentOk(t.consent, t.log)
  {
    var t := Withdrawing(s, key);
    assert t.log[..|t.log| - 1] == s.log;
    forall k ensures Stored(t.consent, k) == Standing(t.log, k) {
      assert Stored(s.consent, k) == Standing(s.log, k);
    }
  }

  lemma RememberingKeepsInv(digest: Digest, s: State, client: Client, scopes: seq<string>, ident: Ident)
    requires Inv(digest, s)
    ensures Inv(digest, Remembering(s, client, scopes, ident))
  {
    hide ConsentOk, AuthsOk, CodesOk, RefreshesOk, RequestsOk, TakenOk, MintsOk, LineageOk, GateOk;
    ConsentRemembered(s, client, scopes, ident);
    TokensKept(digest, s, Remembering(s, client, scopes, ident));
  }

  lemma WithdrawingKeepsInv(digest: Digest, s: State, key: ConsentKey)
    requires Inv(digest, s)
    ensures Inv(digest, Withdrawing(s, key))
  {
    hide ConsentOk, AuthsOk, CodesOk, RefreshesOk, RequestsOk, TakenOk, MintsOk, LineageOk, GateOk;
    ConsentWithdrawn(s, key);
    TokensKept(digest, s, Withdrawing(s, key));
  }

  lemma ClientsChangeKeepsInv(digest: Digest, s: State, clients: map<string, Client>)
    requires Inv(digest, s) && ClientsOk(clients)
    ensures Inv(digest, s.(clients := clients))
  {
    hide ConsentOk, AuthsOk, CodesOk, RefreshesOk, RequestsOk, TakenOk, MintsOk, LineageOk, GateOk;
    TokensKept(digest, s, s.(clients := clients));
  }

  lemma TimeKeepsInv(digest: Digest, s: State, time: nat)
    requires Inv(digest, s)
    ensures Inv(digest, s.(time := time))
  {
    hide ConsentOk, AuthsOk, CodesOk, RefreshesOk, RequestsOk, TakenOk, MintsOk, LineageOk, GateOk;
    TokensKept(digest, s, s.(time := time));
  }

  lemma ExpiringCodeKeepsTokens(digest: Digest, s: State, code: string)
    requires Tokens(digest, s)
    ensures Tokens(digest, s.(codes := s.codes - {code}))
  {
    hide CodeOk, RefreshOk, RequestOk, MintOk, LineageOk, Extends, Consumed, GateOk;
    var t := s.(codes := s.codes - {code});
    SameGateExtends(s, t);
    OldStaysOk(digest, s, t);
    MintsHaveOrigins(digest, s);
    ShiftKeepsLineage(s, t, Some(LiveCode(code)), None);
  }

  lemma ExpiringRefreshKeepsTokens(digest: Digest, s: State, token: string)
    requires Tokens(digest, s)
    ensures Tokens(digest, s.(refresh := s.refresh - {token}))
  {
    hide CodeOk, RefreshOk, RequestOk, MintOk, LineageOk, Extends, Consumed, GateOk;
    var t := s.(refresh := s.refresh - {token});
    SameGateExtends(s, t);
    OldStaysOk(digest, s, t);
    MintsHaveOrigins(digest, s);
    ShiftKeepsLineage(s, t, Some(LiveRefresh(token)), None);
  }

  // ---------------------------------------------------------------- a code is issued

  lemma NewCodeOk(s: State, p: AuthzParams, client: Client, scopes: seq<string>, ident: Ident, basis: Basis,
                  random: string)
    requires TakenOk(s) && Fresh(s, random)
    ensures var t := IssuedCode(s, p, client, scopes, ident, basis, random);
            Extends(s, t) && CodeOk(t, random, t.codes[random])
  {
    hide Consumed;
    SameGateExtends(s, IssuedCode(s, p, client, scopes, ident, basis, random));
  }

  predicate LiveAreBorn(s: State) {
    (forall token :: token in s.codes ==> token in s.born) && (forall token :: token in s.refresh ==> token in s.born)
  }

  lemma LiveWereBorn(s: State)
    requires CodesOk(s) && RefreshesOk(s)
    ensures LiveAreBorn(s)
  {
  }

  lemma IssuedCodeShifts(digest: Digest, s: State, p: AuthzParams, client: Client, scopes: seq<string>, ident: Ident,
                         basis: Basis, random: string)
    requires LineageOk(s) && MintsOk(digest, s) && LiveAreBorn(s) && Fresh(s, random)
    ensures LineageOk(IssuedCode(s, p, client, scopes, ident, basis, random))
  {
    hide LineageOk, MintOk, InRequest;
    MintsHaveOrigins(digest, s);
    ShiftKeepsLineage(s, IssuedCode(s, p, client, scopes, ident, basis, random), None, Some(LiveCode(random)));
  }

  lemma IssuedCodeKeepsTokens(digest: Digest, s: State, p: AuthzParams, client: Client, scopes: seq<string>,
                              ident: Ident, basis: Basis, random: string)
    requires Tokens(digest, s) && Fresh(s, random)
    ensures Tokens(digest, IssuedCode(s, p, client, scopes, ident, basis, random))
  {
    hide CodeOk, RefreshOk, RequestOk, MintOk, LineageOk, Extends, Consumed, GateOk;
    NewCodeOk(s, p, client, scopes, ident, basis, random);
    OldStaysOk(digest, s, IssuedCode(s, p, client, scopes, ident, basis, random));
    LiveWereBorn(s);
    IssuedCodeShifts(digest, s, p, client, scopes, ident, basis, random);
  }

  lemma IssuedCodeKeepsInv(digest: Digest, s: State, p: AuthzParams, client: Client, scopes: seq<string>, ident: Ident,
                           basis: Basis, random: string)
    requires Inv(digest, s) && Fresh(s, random)
    requires AuthOk(Authorization(client, ident, p.redirectUri, scopes, p.challenge, p.how, basis, s.time))
    ensures Inv(digest, IssuedCode(s, p, client, scopes, ident, basis, random))
  {
    hide ConsentOk, AuthOk, CodesOk, RefreshesOk, RequestsOk, TakenOk, MintsOk, LineageOk, GateOk;
    IssuedCodeKeepsTokens(digest, s, p, client, scopes, ident, basis, random);
  }

  // ---------------------------------------------------------------- a request moves on, takes a token, mints

  predicate Open(s: State, rid: nat) {
    rid in s.requests && !s.requests[rid].Closed?
  }

  lemma OneRequestChanged(digest: Digest, s: State, t: State, rid: nat)
    requires OldStillOk(digest, s, t) && Open(s, rid)
    requires rid in t.requests && t.requests == s.requests[rid := t.requests[rid]] && t.minted == s.minted
    requires RequestOk(digest, t, rid, t.requests[rid])
    ensures RequestsOk(digest, t) && MintsOk(digest, t)
  {
    hide CodeOk, RefreshOk, RequestOk, MintOk;
  }

  /** A move that consumes nothing and hands nothing on. */
  lemma MovedKeepsTokens(digest: Digest, s: State, rid: nat, r: Request)
    requires Tokens(digest, s) && Open(s, rid)
    requires RequestOk(digest, s, rid, r) && InRequest(r) == None && (Consumed(s.requests[rid]) ==> Consumed(r))
    ensures Tokens(digest, Moved(s, rid, r))
  {
    hide CodeOk, RefreshOk, RequestOk, MintOk, LineageOk, Extends, Consumed, InRequest, GateOk;
    var t := Moved(s, rid, r);
    SameGateExtends(s, t);
    OldStaysOk(digest, s, t);
    RequestStaysOk(digest, s, t, rid, r);
    MintsHaveOrigins(digest, s);
    ShiftKeepsLineage(s, t, Some(InHand(rid)), None);
  }

  lemma SubmittingKeepsTokens(digest: Digest, s: State, rid: nat, form: Form)
    requires Tokens(digest, s) && ClientsOk(s.clients)
    ensures Tokens(digest, Submitting(s, rid, form))
  {
    hide CodeOk, RefreshOk, RequestOk, MintOk, LineageOk, Extends, Consumed, GateOk;
    if rid !in s.forms {
      var t := Submitting(s, rid, form);
      SubmittedOk(digest, s, rid, form);
      OldStaysOk(digest, s, t);
      MintsHaveOrigins(digest, s);
      ShiftKeepsLineage(s, t, None, None);
    }
  }

  lemma SubmittedOk(digest: Digest, s: State, rid: nat, form: Form)
    requires RequestsOk(digest, s) && ClientsOk(s.clients) && rid !in s.forms
    ensures var t := Submitting(s, rid, form);
            && rid !in s.requests && Extends(s, t)
            && RequestOk(digest, t, rid, t.requests[rid]) && InRequest(t.requests[rid]) == None
  {
    SameGateExtends(s, Submitting(s, rid, form));
  }

  lemma TakingExtends(s: State, rid: nat, token: string, r: Request)
    requires token !in s.taken
    ensures Extends(s, TakeCode(s, rid, token, r)) && Extends(s, TakeRefresh(s, rid, token, r))
  {
    SameGateExtends(s, TakeCode(s, rid, token, r));
    SameGateExtends(s, TakeRefresh(s, rid, token, r));
  }

  /** Consuming a code moves its place in the lineage into the hands of the request. */
  lemma TakingCodeShifts(digest: Digest, s: State, rid: nat, code: string, r: Request)
    requires LineageOk(s) && MintsOk(digest, s) && code in s.codes
    requires InRequest(r).Some? ==> InRequest(r).value == Held(s.codes[code].origin, Split(s.codes[code].scope))
    ensures LineageOk(TakeCode(s, rid, code, r))
  {
    hide LineageOk, MintOk, InRequest;
    MintsHaveOrigins(digest, s);
    ShiftKeepsLineage(s, TakeCode(s, rid, code, r), Some(LiveCode(code)), Some(InHand(rid)));
  }

  lemma TakingRefreshShifts(digest: Digest, s: State, rid: nat, token: string, r: Request)
    requires LineageOk(s) && MintsOk(digest, s) && token in s.refresh
    requires InRequest(r).Some? ==>
               && InRequest(r).value.origin == s.refresh[token].origin
               && Subset(InRequest(r).value.words, Split(s.refresh[token].scope))
    ensures LineageOk(TakeRefresh(s, rid, token, r))
  {
    hide LineageOk, MintOk, InRequest;
    MintsHaveOrigins(digest, s);
    ShiftKeepsLineage(s, TakeRefresh(s, rid, token, r), Some(LiveRefresh(token)), Some(InHand(rid)));
  }

  lemma StoresShrink(digest: Digest, s: State, t: State, gone: string, rid: nat)
    requires OldStillOk(digest, s, t) && t.taken == s.taken[gone := rid]
    requires forall token :: token in s.codes ==> token !in s.refresh
    requires || (gone in s.codes && t.codes == s.codes - {gone} && t.refresh == s.refresh)
             || (gone in s.refresh && t.codes == s.codes && t.refresh == s.refresh - {gone})
    ensures CodesOk(t) && RefreshesOk(t)
  {
    hide CodeOk, RefreshOk, RequestOk, MintOk, MintsServed;
  }

  lemma TakenGrows(s: State, t: State, gone: string, rid: nat, r: Request)
    requires TakenOk(s) && gone in s.born && Consumed(r)
    requires t.taken == s.taken[gone := rid] && t.requests == s.requests[rid := r] && t.born == s.born
    ensures TakenOk(t)
  {
    hide Consumed;
  }

  lemma TakingCodeKeepsTokens(digest: Digest, s: State, rid: nat, code: string, r: Request)
    requires Tokens(digest, s) && Open(s, rid) && code in s.codes && Consumed(r)
    requires RequestOk(digest, TakeCode(s, rid, code, r), rid, r)
    requires InRequest(r).Some? ==> InRequest(r).value == Held(s.codes[code].origin, Split(s.codes[code].scope))
    ensures Tokens(digest, TakeCode(s, rid, code, r))
  {
    hide CodesOk, RefreshesOk, RequestsOk, MintsOk, RequestOk, LineageOk, TakenOk, OldStillOk, Extends, Consumed,
          InRequest, GateOk;
    var t := TakeCode(s, rid, code, r);
    LiveWereBorn(s);
    LiveAreNotTaken(s);
    TakingExtends(s, rid, code, r);
    OldStaysOk(digest, s, t);
    OneRequestChanged(digest, s, t, rid);
    OnePlace(digest, s);
    StoresShrink(digest, s, t, code, rid);
    TakenGrows(s, t, code, rid, r);
    TakingCodeShifts(digest, s, rid, code, r);
  }

  lemma TakingRefreshKeepsTokens(digest: Digest, s: State, rid: nat, token: string, r: Request)
    requires Tokens(digest, s) && Open(s, rid) && token in s.refresh && Consumed(r)
    requires RequestOk(digest, TakeRefresh(s, rid, token, r), rid, r)
    requires InRequest(r).Some? ==>
               && InRequest(r).value.origin == s.refresh[token].origin
               && Subset(InRequest(r).value.words, Split(s.refresh[token].scope))
    ensures Tokens(digest, TakeRefresh(s, rid, token, r))
  {
    hide CodesOk, RefreshesOk, RequestsOk, MintsOk, RequestOk, LineageOk, TakenOk, OldStillOk, Extends, Consumed,
          InRequest, GateOk;
    var t := TakeRefresh(s, rid, token, r);
    LiveWereBorn(s);
    LiveAreNotTaken(s);
    TakingExtends(s, rid, token, r);
    OldStaysOk(digest, s, t);
    OneRequestChanged(digest, s, t, rid);
    OnePlace(digest, s);
    StoresShrink(digest, s, t, token, rid);
    TakenGrows(s, t, token, rid, r);
    TakingRefreshShifts(digest, s, rid, token, r);
  }

  lemma OneHolderEach(s: State, g: Holder, h: Holder)
    requires OneHolder(s) && g != h && HeldBy(s, g).Some?
    ensures HeldBy(s, h).None? || HeldBy(s, h).value.origin != HeldBy(s, g).value.origin
  {
    hide HeldBy;
  }

  /** No token is both a code and a refresh token. */
  lemma OnePlace(digest: Digest, s: State)
    requires CodesOk(s) && RefreshesOk(s) && LineageOk(s)
    ensures forall token :: token in s.codes ==> token !in s.refresh
  {
    hide OneHolder, HoldersFollow, MintsFollow;
    forall token | token in s.codes ensures token !in s.refresh {
      OneHolderEach(s, LiveCode(token), LiveRefresh(token));
    }
  }

  // ---------------------------------------------------------------- the gate

  /** A gate step extends the record of calls. */
  lemma GateStepExtends(s: State, t: State, e: GateRuns.Event)
    requires GateOk(s.gate, s.calls) && (e.Begin? ==> e.id == s.calls)
    requires t.gate == GateRuns.Step(s.gate, e) && t.calls == if e.Begin? then s.calls + 1 else s.calls
    ensures GateOk(t.gate, t.calls)
    ensures forall k :: k in s.gate.done ==> k in t.gate.done && t.gate.done[k] == s.gate.done[k]
    ensures forall k :: TenantOf(s.gate, k).Some? ==> TenantOf(t.gate, k) == TenantOf(s.gate, k)
    ensures e.Begin? ==> TenantOf(t.gate, e.id) == Some(e.tenant)
  {
    hide GateRuns.Inv, GateRuns.Step;
    GateRuns.StepKeepsInv(s.gate, e);
    NoneBothPendingAndDone(s.gate);
    forall k: nat
      ensures k in s.gate.done ==> k in t.gate.done && t.gate.done[k] == s.gate.done[k]
      ensures TenantOf(s.gate, k).Some? ==> TenantOf(t.gate, k) == TenantOf(s.gate, k)
      ensures k in t.gate.pending || k in t.gate.done ==> k < t.calls
    {
      GateRuns.StepKeepsCall(s.gate, e, k);
    }
    if e.Begin? { GateRuns.StepKeepsCall(s.gate, e, e.id); }
  }

  lemma NoneBothPendingAndDone(gate: GateRuns.State)
    requires GateRuns.Inv(gate)
    ensures forall id :: id in gate.pending ==> id !in gate.done
  {
    hide GateRuns.CacheOk, GateRuns.DonesOk, GateRuns.LookupsOk, GateRuns.Backed;
  }

  lemma GateStepExtendsAll(s: State, t: State, e: GateRuns.Event)
    requires GateOk(s.gate, s.calls) && (e.Begin? ==> e.id == s.calls)
    requires t.gate == GateRuns.Step(s.gate, e) && t.calls == if e.Begin? then s.calls + 1 else s.calls
    requires t == s.(gate := t.gate, calls := t.calls, requests := t.requests)
    ensures Extends(s, t) && GateOk(t.gate, t.calls)
  {
    hide GateRuns.Step, GateOk, TenantOf;
    GateStepExtends(s, t, e);
  }

  lemma GateMovingKeepsTokens(digest: Digest, s: State, e: GateRuns.Event)
    requires Tokens(digest, s)
    ensures Tokens(digest, GateMoving(s, e))
  {
    hide CodeOk, RefreshOk, RequestOk, MintOk, LineageOk, Extends, Consumed, GateOk, GateRuns.Step;
    if !e.Begin? {
      var t := GateMoving(s, e);
      GateStepExtendsAll(s, t, e);
      OldStaysOk(digest, s, t);
      ShiftKept(digest, s, t);
    }
  }

  lemma CallingKeepsTokens(digest: Digest, s: State, rid: nat, r: Request)
    requires Tokens(digest, s) && Open(s, rid) && s.requests[rid] == r && r.AtGate? && r.call.None?
    ensures Tokens(digest, Calling(s, rid, r.client, r.tenant, r.next))
  {
    hide CodeOk, RefreshOk, RequestOk, MintOk, LineageOk, Extends, GateOk, GateRuns.Step;
    var t := Calling(s, rid, r.client, r.tenant, r.next);
    GateStepExtendsAll(s, t, GateRuns.Begin(s.calls, r.tenant));
    OldStaysOk(digest, s, t);
    CalledOk(digest, s, rid, r);
    MintsHaveOrigins(digest, s);
    SameHolders(s, t, rid);
    ShiftKeepsLineage(s, t, None, None);
  }

  lemma SameHolders(s: State, t: State, rid: nat)
    requires Open(s, rid) && rid in t.requests && t.requests == s.requests[rid := t.requests[rid]]
    requires InRequest(t.requests[rid]) == InRequest(s.requests[rid])
    requires t.codes == s.codes && t.refresh == s.refresh && t.auths == s.auths
    ensures Shifts(s, t, None, None)
  {
  }

  lemma CalledOk(digest: Digest, s: State, rid: nat, r: Request)
    requires GateOk(s.gate, s.calls) && RequestOk(digest, s, rid, r) && r.AtGate? && r.call.None?
    ensures RequestOk(digest, Calling(s, rid, r.client, r.tenant, r.next), rid, r.(call := Some(s.calls)))
  {
    hide PlanOk, Authenticated, GateOk, GateRuns.Step, TenantOf, Extends;
    var t := Calling(s, rid, r.client, r.tenant, r.next);
    GateStepExtends(s, t, GateRuns.Begin(s.calls, r.tenant));
    GateStepExtendsAll(s, t, GateRuns.Begin(s.calls, r.tenant));
    RequestStaysOk(digest, s, t, rid, r);
  }

  // ---------------------------------------------------------------- minting

  predicate ReadyToMint(s: State, rid: nat, plan: Plan, call: nat) {
    && Open(s, rid) && s.requests[rid].AtGate? && s.requests[rid].next == ThenMint(plan)
    && s.requests[rid].call == Some(call)
    && call in s.gate.done && s.gate.done[call].reply.admits
  }

  lemma MintingExtends(s: State, rid: nat, plan: Plan, call: nat, random: string)
    requires Reissues(plan) ==> Fresh(s, random)
    ensures Extends(s, Minting(s, rid, plan, call, random))
  {
    hide Reissues;
    SameGateExtends(s, Minting(s, rid, plan, call, random));
  }

  lemma NewMintOk(digest: Digest, s: State, rid: nat, plan: Plan, call: nat, random: string)
    requires ReadyToMint(s, rid, plan, call) && RequestOk(digest, s, rid, s.requests[rid])
    requires Reissues(plan) ==> Fresh(s, random)
    ensures MintOk(digest, Minting(s, rid, plan, call, random), |s.minted|, Minted(plan, rid, call))
  {
    hide PlanOk, Extends, Reissues;
    MintingExtends(s, rid, plan, call, random);
    PlanStaysOk(digest, s, Minting(s, rid, plan, call, random), rid, plan);
  }

  lemma PlanScopeWithin(digest: Digest, s: State, rid: nat, plan: Plan)
    requires PlanOk(digest, s, rid, plan) && AuthsOk(s.auths) && !plan.source.ForService?
    ensures plan.source.origin < |s.auths| && ForUser(plan, s.auths[plan.source.origin])
    ensures ScopeWithin(plan.scope, s.auths[plan.source.origin].scopes)
    ensures plan.source.FromRefresh? ==> RootOk(s, plan.source.root, plan.source.origin)
  {
    hide RedeemedBy, Authenticated, RootOk, ForUser;
    var a := s.auths[plan.source.origin];
    assert AuthOk(a);
    SplitJoin(a.scopes);
  }

  /** The refresh token issued with a mint carries the mint's own scope and lineage. */
  lemma NewRefreshOk(digest: Digest, s: State, rid: nat, plan: Plan, call: nat, random: string)
    requires PlanOk(digest, s, rid, plan) && AuthsOk(s.auths) && TakenOk(s) && Reissues(plan) && Fresh(s, random)
    ensures var t := Minting(s, rid, plan, call, random); random in t.refresh && RefreshOk(t, random, t.refresh[random])
  {
    PlanScopeWithin(digest, s, rid, plan);
    hide Consumed, PlanOk, ScopeWithin, AuthsOk;
  }

  lemma MintingMoves(s: State, rid: nat, plan: Plan, call: nat, random: string)
    requires ReadyToMint(s, rid, plan, call)
    ensures var t := Minting(s, rid, plan, call, random);
            && Shifts(s, t, Some(InHand(rid)), if Reissues(plan) then Some(LiveRefresh(random)) else None)
            && t.minted == s.minted + [Minted(plan, rid, call)] && t.auths == s.auths
    ensures HeldBy(s, InHand(rid))
            == if plan.source.ForService? then None else Some(Held(plan.source.origin, Split(plan.scope)))
  {
  }

  lemma MintingShifts(digest: Digest, s: State, rid: nat, plan: Plan, call: nat, random: string)
    requires LineageOk(s) && MintsOk(digest, s) && ReadyToMint(s, rid, plan, call)
    ensures LineageOk(Minting(s, rid, plan, call, random))
  {
    hide LineageOk, MintOk, Shifts, HeldBy, Minting;
    MintsHaveOrigins(digest, s);
    MintingMoves(s, rid, plan, call, random);
    MintKeepsLineage(s, Minting(s, rid, plan, call, random), rid, plan, call,
                     if Reissues(plan) then Some(LiveRefresh(random)) else None);
  }

  lemma MintsGrow(digest: Digest, s: State, t: State, rid: nat, m: Minted)
    requires OldStillOk(digest, s, t) && Open(s, rid)
    requires t.minted == s.minted + [m] && t.requests == s.requests[rid := Closed(Served(|s.minted|))] && m.rid == rid
    requires MintOk(digest, t, |s.minted|, m) && rid in t.forms
    ensures MintsOk(digest, t) && RequestsOk(digest, t)
  {
    hide CodeOk, RefreshOk, MintOk;
  }

  lemma MintingStoresOk(digest: Digest, s: State, rid: nat, plan: Plan, call: nat, random: string)
    requires OldStillOk(digest, s, Minting(s, rid, plan, call, random)) && TakenOk(s)
    requires Reissues(plan) ==> Fresh(s, random)
    requires Reissues(plan) ==>
            var t := Minting(s, rid, plan, call, random); random in t.refresh && RefreshOk(t, random, t.refresh[random])
    ensures var t := Minting(s, rid, plan, call, random); CodesOk(t) && RefreshesOk(t) && TakenOk(t)
  {
    hide CodeOk, RefreshOk, RequestOk, MintOk, Reissues;
  }

  lemma MintingKeepsTokens(digest: Digest, s: State, rid: nat, plan: Plan, call: nat, random: string)
    requires Tokens(digest, s) && AuthsOk(s.auths) && ReadyToMint(s, rid, plan, call)
    requires Reissues(plan) ==> Fresh(s, random)
    ensures Tokens(digest, Minting(s, rid, plan, call, random))
  {
    hide CodesOk, RefreshesOk, MintsOk, LineageOk, TakenOk, OldStillOk, Extends, GateOk, AuthsOk, PlanOk, Reissues;
    var t := Minting(s, rid, plan, call, random);
    MintingExtends(s, rid, plan, call, random);
    OldStaysOk(digest, s, t);
    NewMintOk(digest, s, rid, plan, call, random);
    MintsGrow(digest, s, t, rid, Minted(plan, rid, call));
    if Reissues(plan) { NewRefreshOk(digest, s, rid, plan, call, random); }
    MintingStoresOk(digest, s, rid, plan, call, random);
    MintingShifts(digest, s, rid, plan, call, random);
  }
}
