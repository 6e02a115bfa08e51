/** A run in which a refresh token is lost: a client asks for a service token before its tenant is
    live, and the late refusal lands between the two looks of a refresh. */
module OAuthLostToken {
  import opened Text
  import opened OAuth
  import opened OAuthMachine
  import opened OAuthInvariant
  import opened OAuthSteps
  import opened OAuthRuns
  import opened OAuthLoss
  import GateRuns
  import TenantGate

  const URI: string := "u"
  const TENANT: string := "t"

  const CLIENT := Client("c", TENANT, {URI}, {AuthorizationCode, ClientCredentials}, [OFFLINE_ACCESS], SecretBasic,
                         true, Some("s"))
  const USER := Ident("ada", TENANT)
  const PARAMS := AuthzParams("c", URI, true, OFFLINE_ACCESS, "", S256)

  const FOR_SERVICE := Form("c", "s", ServiceGrant(""))
  const FOR_CODE := Form("c", "s", CodeGrant("k", URI, ""))
  const FOR_REFRESH := Form("c", "s", RefreshGrant("r", ""))

  lemma OfflineIsOneWord()
    ensures Split(OFFLINE_ACCESS) == [OFFLINE_ACCESS] && Join([OFFLINE_ACCESS]) == OFFLINE_ACCESS
    ensures Keep(Split(OFFLINE_ACCESS), [OFFLINE_ACCESS]) == [OFFLINE_ACCESS]
  {
    var words := [OFFLINE_ACCESS];
    assert IsWord(OFFLINE_ACCESS);
    SplitJoin(words);
    assert words[1..] == [];
  }

  lemma Resolves(clients: map<string, Client>)
    requires clients == map["c" := CLIENT]
    ensures Resolve(clients, PARAMS) == Granted(CLIENT, [OFFLINE_ACCESS])
  {
    OfflineIsOneWord();
    hide Split, Keep;
  }

  lemma Authenticates(clients: map<string, Client>)
    requires clients == map["c" := CLIENT]
    ensures ClientAuth(clients, "c", "s") == Some((CLIENT, true))
  {
  }

  // ---------------------------------------------------------------- the service request

  const ASKING: seq<Event> := [PutClient(CLIENT), Submit(0, FOR_SERVICE), Advance(0, ""), Advance(0, "")]

  /** The service request stands at the gate, its call just begun. */
  function Asking(): State {
    Init(true).(
      clients := map["c" := CLIENT], forms := map[0 := FOR_SERVICE], calls := 1, time := 4,
      requests := map[0 := AtGate(CLIENT, TENANT, Some(0), ThenMintForService)],
      gate := GateRuns.Step(GateRuns.Init(true), GateRuns.Begin(0, TENANT)))
  }

  lemma ReachesAsking(digest: Digest)
    ensures Run(digest, true, ASKING) == Asking()
  {
    hide RunFrom, GateRuns.Step, GateRuns.Init, Submitting;
    FourEvents(digest, Init(true), ASKING[0], ASKING[1], ASKING[2], ASKING[3]);
    var s1 := Step(digest, Init(true), ASKING[0]);
    assert s1 == Init(true).(clients := map["c" := CLIENT], time := 1);
    Submits(digest, s1, 0, FOR_SERVICE);
    var s2 := Step(digest, s1, ASKING[1]);
    assert s2 == s1.(requests := map[0 := Received(CLIENT)], forms := map[0 := FOR_SERVICE], time := 2);
    var s3 := Step(digest, s2, ASKING[2]);
    assert s3 == s2.(requests := map[0 := AtGate(CLIENT, TENANT, None, ThenMintForService)], time := 3);
    AdvancesCalling(digest, s3, 0, CLIENT, TENANT, ThenMintForService);
  }

  /** Its call has been answered, not live; and then the tenant has become live. */
  const LIVE: seq<GateRuns.Event> :=
    [GateRuns.Probe(0), GateRuns.Ask(0), GateRuns.SetRegistry(TENANT, TenantGate.Found(TenantGate.Live)),
     GateRuns.Tick(0.0)]

  predicate LateAnswer(g: GateRuns.State) {
    && g.now == 0.0 && g.configured && g.registry == map[TENANT := TenantGate.Found(TenantGate.Live)]
    && g.pending == map[0 := GateRuns.Answered(TENANT, 0.0, TenantGate.NotFound)]
  }

  lemma AnsweredLate(g: GateRuns.State)
    requires g == GateRuns.RunFrom(Asking().gate, LIVE)
    ensures LateAnswer(g) && g.cache == map[] && g.done == map[]
  {
    hide GateRuns.RunFrom, GateRuns.Step, GateRuns.Init;
    var g0 := GateRuns.Init(true);
    var g1 := GateRuns.Step(g0, GateRuns.Begin(0, TENANT));
    GateRuns.FourSteps(g1, LIVE[0], LIVE[1], LIVE[2], LIVE[3]);
    var late := GateRuns.Step(GateRuns.Step(GateRuns.Step(g1, LIVE[0]), LIVE[1]), LIVE[2]);
    GateRuns.LateRefusal(TENANT, late);
    NoTime(late);
  }

  lemma NoTime(g: GateRuns.State)
    ensures GateRuns.Step(g, GateRuns.Tick(0.0)) == g
  {
  }

  // ---------------------------------------------------------------- a code, redeemed

  function Payload(): CodePayload {
    CodePayload("c", "ada", TENANT, URI, OFFLINE_ACCESS, "", S256, 0)
  }

  function CodePlan(): Plan {
    Plan(FromCode(0, "k"), CLIENT, "ada", TENANT, OFFLINE_ACCESS)
  }

  const REDEEMING: seq<Event> := [Authorize(PARAMS, USER, false, "k"), Submit(1, FOR_CODE), Advance(1, ""),
                                  Gate(GateRuns.Tick(0.0))]

  lemma Issues(digest: Digest, s: State, random: string)
    requires s.clients == map["c" := CLIENT] && Fresh(s, random)
    ensures Step(digest, s, Authorize(PARAMS, USER, false, random)) ==
              IssuedCode(s, PARAMS, CLIENT, [OFFLINE_ACCESS], USER, TrustedClient, random).(time := s.time + 1)
  {
    hide Resolve, IssuedCode;
    Resolves(s.clients);
  }

  lemma IssuedPayload(s: State, random: string)
    requires s.auths == []
    ensures var t := IssuedCode(s, PARAMS, CLIENT, [OFFLINE_ACCESS], USER, TrustedClient, random);
            && t.codes == s.codes[random := Payload()] && t.born == s.born[random := 0]
            && t.gate == s.gate && t.forms == s.forms && t.requests == s.requests && t.clients == s.clients
            && t.calls == s.calls
            && t.minted == s.minted && t.refresh == s.refresh && t.taken == s.taken
  {
    OfflineIsOneWord();
    hide Join;
  }

  predicate Unused(s: State) {
    && s.clients == map["c" := CLIENT] && s.calls == 1 && 1 !in s.forms && 2 !in s.forms
    && s.auths == [] && s.minted == [] && s.codes == map[] && s.refresh == map[] && s.born == map[] && s.taken == map[]
  }

  /** The code has been issued and consumed, and its request has a plan. */
  lemma Redeems(digest: Digest, b: State)
    requires Unused(b)
    ensures var c := RunFrom(digest, b, REDEEMING);
            && c.gate == b.gate && c.calls == 1 && c.clients == b.clients
            && c.forms == b.forms[1 := FOR_CODE]
            && c.requests == b.requests[1 := AtGate(CLIENT, TENANT, None, ThenMint(CodePlan()))]
            && c.refresh == map[] && c.taken == map["k" := 1] && c.born == map["k" := 0] && c.minted == []
  {
    hide RunFrom, Effect, IssuedCode, GateRuns.Step, Unused;
    FourEvents(digest, b, REDEEMING[0], REDEEMING[1], REDEEMING[2], REDEEMING[3]);
    var s1 := Step(digest, b, REDEEMING[0]);
    IssuesHere(digest, b);
    Submits(digest, s1, 1, FOR_CODE);
    var s2 := Step(digest, s1, REDEEMING[1]);
    Consumes(digest, s2);
    Rests(digest, Step(digest, s2, REDEEMING[2]));
  }

  lemma IssuesHere(digest: Digest, b: State)
    requires Unused(b)
    ensures var s := Step(digest, b, REDEEMING[0]);
            && s.codes == map["k" := Payload()] && s.born == map["k" := 0]
            && s.gate == b.gate && s.forms == b.forms && s.requests == b.requests && s.clients == b.clients
            && s.calls == 1
            && s.minted == [] && s.refresh == map[] && s.taken == map[] && 1 !in s.forms
            && s.clients == map["c" := CLIENT]
  {
    hide IssuedCode, Effect;
    Issues(digest, b, "k");
    IssuedPayload(b, "k");
  }

  lemma Rests(digest: Digest, s: State)
    ensures Step(digest, s, Gate(GateRuns.Tick(0.0))) == s.(time := s.time + 1)
  {
    NoTime(s.gate);
    hide GateRuns.Step;
  }

  lemma Submits(digest: Digest, s: State, rid: nat, form: Form)
    requires s.clients == map["c" := CLIENT] && rid !in s.forms && form.clientId == "c" && form.secret == "s"
    ensures Step(digest, s, Submit(rid, form)) ==
              s.(requests := s.requests[rid := Received(CLIENT)], forms := s.forms[rid := form], time := s.time + 1)
  {
    hide ClientAuth;
    Authenticates(s.clients);
  }

  lemma Consumes(digest: Digest, s: State)
    requires 1 in s.requests && s.requests[1] == Received(CLIENT) && 1 in s.forms && s.forms[1] == FOR_CODE
    requires "k" in s.codes && s.codes["k"] == Payload()
    ensures Step(digest, s, Advance(1, "")) ==
              TakeCode(s, 1, "k", AtGate(CLIENT, TENANT, None, ThenMint(CodePlan()))).(time := s.time + 1)
  {
  }

  // ---------------------------------------------------------------- minted, and about to be refreshed

  lemma Mints(digest: Digest, s: State)
    requires 1 in s.requests && s.requests[1] == AtGate(CLIENT, TENANT, Some(1), ThenMint(CodePlan()))
    requires 1 in s.forms && 1 in s.gate.done && s.gate.done[1].reply.admits && "r" !in s.born && s.minted == []
    ensures var t := Step(digest, s, Advance(1, "r"));
            && t.refresh == s.refresh["r" := RefreshPayload("c", "ada", TENANT, OFFLINE_ACCESS, 0, 0)]
            && t.gate == s.gate && t.calls == s.calls && t.clients == s.clients && t.forms == s.forms
            && t.requests == s.requests[1 := Closed(Served(0))]
  {
    OfflineIsOneWord();
    hide Split;
  }

  lemma Peeks(digest: Digest, s: State, rid: nat, client: Client)
    requires rid in s.requests && s.requests[rid] == Received(client) && rid in s.forms
    requires s.forms[rid].grant.RefreshGrant?
    requires var token := s.forms[rid].grant.token;
             token != "" && token in s.refresh && s.refresh[token].clientId == client.id
    ensures Step(digest, s, Advance(rid, "")) ==
              s.(requests := s.requests[rid := AtGate(client, s.refresh[s.forms[rid].grant.token].tenant, None,
                                                      ThenConsume)],
                 time := s.time + 1)
  {
    hide ConsumingCode, ConsumingRefresh, CheckedService, Gating;
  }

  const MINTING: seq<Event> := [Advance(1, "r"), Submit(2, FOR_REFRESH), Advance(2, ""), Gate(GateRuns.Tick(0.0))]

  lemma MintsAndPeeks(digest: Digest, s: State)
    requires 1 in s.requests && s.requests[1] == AtGate(CLIENT, TENANT, Some(1), ThenMint(CodePlan()))
    requires 1 in s.forms && 1 in s.gate.done && s.gate.done[1].reply.admits && "r" !in s.born && s.minted == []
    requires s.clients == map["c" := CLIENT] && 2 !in s.forms
    ensures var t := RunFrom(digest, s, MINTING);
            && t.gate == s.gate && t.calls == s.calls
            && t.forms == s.forms[2 := FOR_REFRESH]
            && 2 in t.requests && t.requests[2] == AtGate(CLIENT, TENANT, None, ThenConsume)
            && "r" in t.refresh && t.refresh["r"] == RefreshPayload("c", "ada", TENANT, OFFLINE_ACCESS, 0, 0)
  {
    hide RunFrom, Effect, GateRuns.Step;
    FourEvents(digest, s, MINTING[0], MINTING[1], MINTING[2], MINTING[3]);
    Mints(digest, s);
    var s1 := Step(digest, s, MINTING[0]);
    Submits(digest, s1, 2, FOR_REFRESH);
    var s2 := Step(digest, s1, MINTING[1]);
    Peeks(digest, s2, 2, CLIENT);
    Rests(digest, Step(digest, s2, MINTING[2]));
  }

  // ---------------------------------------------------------------- the two looks

  /** The gate after an admitting call, with the late answer still under way. */
  predicate Admitting(g: GateRuns.State, call: nat) {
    && LateAnswer(g) && TENANT in g.cache && g.cache[TENANT] == TenantGate.Entry(60.0, true, TenantGate.NoReason)
    && call in g.done && g.done[call].reply.admits
    && forall id :: id in g.done ==> id <= call
  }

  lemma CallAdmits(digest: Digest, s: State, rid: nat, next: Next, n: nat)
    requires rid in s.forms && rid in s.requests && s.requests[rid] == AtGate(CLIENT, TENANT, None, next)
    requires n == s.calls && n > 0 && LateAnswer(s.gate) && forall id :: id in s.gate.done ==> id < n
    requires || s.gate.cache == map[]
             || (TENANT in s.gate.cache && s.gate.cache[TENANT] == TenantGate.Entry(60.0, true, TenantGate.NoReason))
    ensures var t := RunFrom(digest, s, Calls(rid, n));
            && t == s.(requests := s.requests[rid := AtGate(CLIENT, TENANT, Some(n), next)], calls := n + 1,
                       time := s.time + 4, gate := t.gate)
            && Admitting(t.gate, n)
  {
    hide RunFrom, GateRuns.RunFrom;
    CallsAlone(digest, s, rid, CLIENT, TENANT, next);
    GateRuns.GateAlone(s.gate, n, TENANT);
  }

  function Brink(): seq<Event> {
    ASKING + Lifted(LIVE) + REDEEMING + Calls(1, 1) + MINTING + Calls(2, 2)
  }

  lemma BrinkInParts(digest: Digest)
    ensures var b := RunFrom(digest, Run(digest, true, ASKING), Lifted(LIVE));
            var d := RunFrom(digest, RunFrom(digest, b, REDEEMING), Calls(1, 1));
            Run(digest, true, Brink()) == RunFrom(digest, RunFrom(digest, d, MINTING), Calls(2, 2))
  {
    hide RunFrom, Step, Lifted, Calls, Init;
    var start := Init(true);
    RunFromAppend(digest, start, ASKING, Lifted(LIVE));
    RunFromAppend(digest, start, ASKING + Lifted(LIVE), REDEEMING);
    RunFromAppend(digest, start, ASKING + Lifted(LIVE) + REDEEMING, Calls(1, 1));
    RunFromAppend(digest, start, ASKING + Lifted(LIVE) + REDEEMING + Calls(1, 1), MINTING);
    RunFromAppend(digest, start, ASKING + Lifted(LIVE) + REDEEMING + Calls(1, 1) + MINTING, Calls(2, 2));
  }

  /** The code's request has been let through to the mint. */
  predicate AtMint(s: State) {
    && 1 in s.requests && s.requests[1] == AtGate(CLIENT, TENANT, Some(1), ThenMint(CodePlan()))
    && 1 in s.forms && 2 !in s.forms && s.clients == map["c" := CLIENT] && s.calls == 2
    && "r" !in s.born && s.minted == [] && Admitting(s.gate, 1)
  }

  lemma ReachesMint(digest: Digest, b: State)
    requires Unused(b) && LateAnswer(b.gate) && b.gate.cache == map[] && b.gate.done == map[]
    ensures AtMint(RunFrom(digest, RunFrom(digest, b, REDEEMING), Calls(1, 1)))
  {
    hide RunFrom, Calls, LateAnswer;
    Redeems(digest, b);
    CallAdmits(digest, RunFrom(digest, b, REDEEMING), 1, ThenMint(CodePlan()), 1);
  }

  lemma ReachesFirstLook(digest: Digest, d: State)
    requires AtMint(d)
    ensures var s := RunFrom(digest, RunFrom(digest, d, MINTING), Calls(2, 2));
            Ready(s, 2, "r", TENANT) && s.requests[2].call == Some(2) && Admitting(s.gate, 2)
  {
    hide RunFrom, Calls, LateAnswer;
    MintsAndPeeks(digest, d);
    CallAdmits(digest, RunFrom(digest, d, MINTING), 2, ThenConsume, 2);
  }

  /** A reachable state in which a refresh has just been let through by its first look, below the
      cached deadline, and a refusal for its tenant is on its way. */
  lemma ReachesBrink(digest: Digest)
    ensures var s := Run(digest, true, Brink());
            Ready(s, 2, "r", TENANT) && s.requests[2].call == Some(2) && Admitting(s.gate, 2)
  {
    hide RunFrom, Run, GateRuns.RunFrom, Asking, Brink, Calls, Lifted, Ready, Admitting, AtMint, LateAnswer;
    BrinkInParts(digest);
    ReachesAsking(digest);
    AskingIsUnused();
    var a := Asking();
    GateOnly(digest, a, LIVE);
    AnsweredLate(GateRuns.RunFrom(a.gate, LIVE));
    var b := RunFrom(digest, a, Lifted(LIVE));
    ReachesMint(digest, b);
    ReachesFirstLook(digest, RunFrom(digest, RunFrom(digest, b, REDEEMING), Calls(1, 1)));
  }

  lemma AskingIsUnused()
    ensures Unused(Asking())
  {
    hide GateRuns.Step;
  }

  /** So tokens are lost: there is a run in which a request's first look admits until the 60th
      second, and before then it has consumed its refresh token and been refused at the mint. */
  lemma TokenLostBeforeDeadline(digest: Digest) returns (before: seq<Event>, after: seq<Event>)
    ensures var s, t := Run(digest, true, before), Run(digest, true, before + after);
            && Ready(s, 2, "r", TENANT)
            && TENANT in s.gate.cache && s.gate.cache[TENANT].admits && s.gate.cache[TENANT].deadline == 60.0
            && t.gate.now < s.gate.cache[TENANT].deadline && Lost(t, 2, "r")
  {
    hide RunFrom, Ready, Lost, GateRuns.Harmless, Brink;
    ReachesBrink(digest);
    before := Brink();
    var s := Run(digest, true, before);
    RunKeepsInv(digest, true, before);
    RefusalHarms();
    after := SpoilingLoses(digest, s, 2, "r", TENANT, 60.0, 0);
    RunFromAppend(digest, Init(true), before, after);
  }

  lemma RefusalHarms()
    ensures !GateRuns.Harmless(GateRuns.Answered(TENANT, 0.0, TenantGate.NotFound), 60.0)
  {
  }
}
