/** What holds of every run of the OAuth machine. */
module OAuthTheorems {
  import opened Text
  import opened OAuth
  import opened OAuthMachine
  import opened OAuthInvariant
  import opened OAuthSteps
  import opened OAuthRuns
  import GateRuns
  import TenantGate

  predicate UserMint(s: State, i: nat) {
    i < |s.minted| && !s.minted[i].plan.source.ForService?
  }

  function OriginOf(s: State, i: nat): nat
    requires UserMint(s, i)
  {
    s.minted[i].plan.source.origin
  }

  function ScopesOf(s: State, i: nat): seq<string>
    requires i < |s.minted|
  {
    Split(s.minted[i].plan.scope)
  }

  // ---------------------------------------------------------------- lineages

  function CodesFrom(s: State, origin: nat): set<string> {
    set token | token in s.codes && s.codes[token].origin == origin
  }

  function RefreshesFrom(s: State, origin: nat): set<string> {
    set token | token in s.refresh && s.refresh[token].origin == origin
  }

  /** The requests that have consumed a token of the lineage and not yet minted from it. */
  function InHandFrom(s: State, origin: nat): set<nat> {
    set rid | rid in s.requests && InRequest(s.requests[rid]).Some? && InRequest(s.requests[rid]).value.origin == origin
  }

  lemma AtMostOne<T>(a: set<T>)
    requires forall x, y :: x in a && y in a ==> x == y
    ensures |a| <= 1
  {
    if a != {} {
      var x :| x in a;
      assert a == {x};
    }
  }

  /** Conservation: of one authorization there is, at any moment and under every interleaving,
      at most one of a live code, a live refresh token, and a token in a request's hands. */
  lemma LineageCount(digest: Digest, configured: bool, es: seq<Event>, origin: nat)
    ensures var s := Run(digest, configured, es);
            |CodesFrom(s, origin)| + |RefreshesFrom(s, origin)| + |InHandFrom(s, origin)| <= 1
  {
    hide Run, InRequest;
    RunKeepsInv(digest, configured, es);
    var s := Run(digest, configured, es);
    var c, r, h := CodesFrom(s, origin), RefreshesFrom(s, origin), InHandFrom(s, origin);
    HoldersAgree(s, origin);
    AtMostOne(c);
    AtMostOne(r);
    AtMostOne(h);
  }

  lemma HoldersAgree(s: State, origin: nat)
    requires LineageOk(s)
    ensures forall x, y :: x in CodesFrom(s, origin) && y in CodesFrom(s, origin) ==> x == y
    ensures forall x, y :: x in RefreshesFrom(s, origin) && y in RefreshesFrom(s, origin) ==> x == y
    ensures forall x, y :: x in InHandFrom(s, origin) && y in InHandFrom(s, origin) ==> x == y
    ensures CodesFrom(s, origin) != {} ==> RefreshesFrom(s, origin) == {} && InHandFrom(s, origin) == {}
    ensures RefreshesFrom(s, origin) != {} ==> InHandFrom(s, origin) == {}
  {
    hide InRequest, HoldersFollow, MintsFollow;
    forall x, y | x in CodesFrom(s, origin) && y in CodesFrom(s, origin) ensures x == y {
      SameHolder(s, origin, LiveCode(x), LiveCode(y));
    }
    forall x, y | x in RefreshesFrom(s, origin) && y in RefreshesFrom(s, origin) ensures x == y {
      SameHolder(s, origin, LiveRefresh(x), LiveRefresh(y));
    }
    forall x, y | x in InHandFrom(s, origin) && y in InHandFrom(s, origin) ensures x == y {
      SameHolder(s, origin, InHand(x), InHand(y));
    }
    forall x | x in CodesFrom(s, origin) ensures RefreshesFrom(s, origin) == {} && InHandFrom(s, origin) == {} {
      NoOtherHolder(s, origin, LiveCode(x));
    }
    forall x | x in RefreshesFrom(s, origin) ensures InHandFrom(s, origin) == {} {
      NoOtherHolder(s, origin, LiveRefresh(x));
    }
  }

  predicate Holds(s: State, origin: nat, h: Holder) {
    HeldBy(s, h).Some? && HeldBy(s, h).value.origin == origin
  }

  lemma SameHolder(s: State, origin: nat, g: Holder, h: Holder)
    requires OneHolder(s) && Holds(s, origin, g) && Holds(s, origin, h)
    ensures g == h
  {
  }

  lemma NoOtherHolder(s: State, origin: nat, g: Holder)
    requires OneHolder(s) && Holds(s, origin, g)
    ensures g.LiveCode? ==> RefreshesFrom(s, origin) == {}
    ensures !g.InHand? ==> InHandFrom(s, origin) == {}
  {
    hide InRequest;
    forall t | t in RefreshesFrom(s, origin) ensures g.LiveRefresh? {
      SameHolder(s, origin, g, LiveRefresh(t));
    }
    forall rid | rid in InHandFrom(s, origin) ensures g.InHand? {
      SameHolder(s, origin, g, InHand(rid));
    }
  }

  /** A code or refresh token buys at most one access token, ever, and is dead once consumed. */
  lemma OneAccessTokenEach(digest: Digest, configured: bool, es: seq<Event>, i: nat, j: nat)
    requires UserMint(Run(digest, configured, es), i) && UserMint(Run(digest, configured, es), j)
    ensures var s := Run(digest, configured, es);
            && (s.minted[i].plan.source.token == s.minted[j].plan.source.token ==> i == j)
            && s.minted[i].plan.source.token in s.taken
            && forall token :: token in s.taken ==> token !in s.codes && token !in s.refresh
  {
    hide Run, RedeemedBy, ForUser, ScopeWithin, RootOk, Authenticated;
    RunKeepsInv(digest, configured, es);
    var s := Run(digest, configured, es);
    assert MintOk(digest, s, i, s.minted[i]) && MintOk(digest, s, j, s.minted[j]);
    LiveAreNotTaken(s);
  }

  // ---------------------------------------------------------------- scopes

  /** Along a lineage scopes only shrink: the scopes of every access token are a non-empty subset
      of those of every earlier one, of what was authorized, and of the client's own. */
  lemma ScopesNeverWiden(digest: Digest, configured: bool, es: seq<Event>, i: nat, j: nat)
    requires var s := Run(digest, configured, es);
             UserMint(s, i) && UserMint(s, j) && i <= j && OriginOf(s, i) == OriginOf(s, j)
    ensures var s := Run(digest, configured, es);
            && OriginOf(s, j) < |s.auths|
            && var a := s.auths[OriginOf(s, j)];
               && ScopesOf(s, j) != []
               && Subset(ScopesOf(s, j), ScopesOf(s, i))
               && Subset(ScopesOf(s, j), a.scopes) && Subset(a.scopes, a.client.scopes)
  {
    hide Run, PlanOk, ForUser;
    RunKeepsInv(digest, configured, es);
    var s := Run(digest, configured, es);
    assert MintOk(digest, s, j, s.minted[j]);
    PlanScopeWithin(digest, s, s.minted[j].rid, s.minted[j].plan);
    assert AuthOk(s.auths[OriginOf(s, j)]);
    assert i < j ==> Precedes(s.minted[i], ScopesOf(s, j));
  }

  lemma {:induction false} MintedGrows(digest: Digest, s: State, es: seq<Event>)
    requires Inv(digest, s)
    ensures s.minted <= RunFrom(digest, s, es).minted
  {
    hide Inv, Step;
    if es != [] {
      MintedGrows(digest, s, es[..|es| - 1]);
      StepMints(digest, RunFrom(digest, s, es[..|es| - 1]), es[|es| - 1]);
    }
  }

  /** A step mints at most one access token, and only for a request that is at the gate with a
      plan and has been let through. */
  lemma StepMints(digest: Digest, s: State, e: Event)
    ensures var t := Step(digest, s, e);
            || t.minted == s.minted
            || (|t.minted| == |s.minted| + 1 && s.minted <= t.minted
                && var m := t.minted[|s.minted|]; e.Advance? && e.rid == m.rid && ReadyToMint(s, m.rid, m.plan, m.call))
  {
    hide Authorizing, Deciding, Withdrawing, Submitting, GateMoving, Advancing, ReadyToMint;
    match e
    case Authorize(p, ident, consentUp, random) => AuthorizingMints(s, p, ident, consentUp, random);
    case Decide(p, ident, approved, remember, consentUp, random) =>
      DecidingMints(s, p, ident, approved, remember, consentUp, random);
    case Withdraw(key) => WithdrawingMints(s, key);
    case Submit(rid, form) => SubmittingFrame(s, rid, form);
    case Advance(rid, random) => AdvancingFrame(digest, s, rid, random);
    case Gate(ge) => GateMovingFrame(s, ge);
    case _ =>
  }

  lemma AuthorizingMints(s: State, p: AuthzParams, ident: Ident, consentUp: bool, random: string)
    ensures Authorizing(s, p, ident, consentUp, random).minted == s.minted
  {
    hide Resolve, Has;
  }

  lemma DecidingMints(s: State, p: AuthzParams, ident: Ident, approved: bool, remember: bool, consentUp: bool,
                      random: string)
    ensures Deciding(s, p, ident, approved, remember, consentUp, random).minted == s.minted
  {
    hide Resolve, ConsentGranted;
  }

  lemma WithdrawingMints(s: State, key: ConsentKey)
    ensures Withdrawing(s, key).minted == s.minted
  {
  }

  /** A lineage that has dropped `offline_access` is over: nothing is left of it, and whatever
      happens later mints no further access token for it. */
  lemma LineageEnds(digest: Digest, configured: bool, es: seq<Event>, more: seq<Event>, i: nat)
    requires UserMint(Run(digest, configured, es), i) && OFFLINE_ACCESS !in ScopesOf(Run(digest, configured, es), i)
    ensures var s := Run(digest, configured, es);
            && (forall h :: !Holds(s, OriginOf(s, i), h))
            && var t := RunFrom(digest, s, more);
               && i < |t.minted| && t.minted[i] == s.minted[i]
               && (forall j :: i < j < |t.minted| && UserMint(t, j) ==> OriginOf(t, j) != OriginOf(s, i))
               && (forall h :: !Holds(t, OriginOf(s, i), h))
  {
    hide Run, RunFrom, Inv, Holds;
    RunKeepsInv(digest, configured, es);
    var s := Run(digest, configured, es);
    RunFromKeepsInv(digest, s, more);
    MintedGrows(digest, s, more);
    Over(digest, s, i);
    var t := RunFrom(digest, s, more);
    assert t.minted[i] == s.minted[i];
    assert OriginOf(t, i) == OriginOf(s, i);
    Over(digest, t, i);
  }

  lemma Over(digest: Digest, s: State, i: nat)
    requires Inv(digest, s) && UserMint(s, i) && OFFLINE_ACCESS !in ScopesOf(s, i)
    ensures forall h :: !Holds(s, OriginOf(s, i), h)
    ensures forall j :: i < j < |s.minted| && UserMint(s, j) ==> OriginOf(s, j) != OriginOf(s, i)
  {
    hide HeldBy, ClientsOk, ConsentOk, AuthsOk, CodesOk, RefreshesOk, RequestsOk, TakenOk, MintsOk, GateOk, OneHolder;
  }

  // ---------------------------------------------------------------- provenance

  /** Every access token for a user goes back to one authorization, with the same client, user
      and tenant, whose code was redeemed by an authenticated request of that client for the
      same redirect URI, and with the verifier of the code's challenge; a client that has no
      secret always had a challenge. */
  lemma EveryTokenHasProvenance(digest: Digest, configured: bool, es: seq<Event>, i: nat) returns (root: nat)
    requires UserMint(Run(digest, configured, es), i)
    ensures var s := Run(digest, configured, es);
            && OriginOf(s, i) < |s.auths| && UserMint(s, root) && OriginOf(s, root) == OriginOf(s, i)
            && var a := s.auths[OriginOf(s, i)];
               var m := s.minted[root];
               && ForUser(s.minted[i].plan, a) && ForUser(m.plan, a)
               && m.rid in s.forms && Authenticated(s.forms[m.rid], m.plan.client)
               && RedeemedBy(digest, s.forms[m.rid], m.plan.source.token, a)
               && a.redirectUri in a.client.redirectUris
               && (a.client.authMethod == NoSecret ==> a.challenge != "")
  {
    hide Run, RedeemedBy, ForUser, ScopeWithin, Authenticated;
    RunKeepsInv(digest, configured, es);
    var s := Run(digest, configured, es);
    var source := s.minted[i].plan.source;
    assert MintOk(digest, s, i, s.minted[i]);
    root := if source.FromCode? then i else source.root;
    assert MintOk(digest, s, root, s.minted[root]);
    assert AuthOk(s.auths[OriginOf(s, i)]);
  }

  /** A stored refresh token has the same provenance: one authorization, with the same client,
      user and tenant, redeemed in the same way, and scopes within what was authorized. */
  lemma RefreshTokensHaveProvenance(digest: Digest, configured: bool, es: seq<Event>, token: string)
    returns (root: nat)
    requires token in Run(digest, configured, es).refresh
    ensures var s := Run(digest, configured, es);
            var p := s.refresh[token];
            && p.origin < |s.auths| && UserMint(s, root) && OriginOf(s, root) == p.origin
            && var a := s.auths[p.origin];
               var m := s.minted[root];
               && p.clientId == a.client.id && p.user == a.ident.user && p.tenant == a.ident.tenant
               && ScopeWithin(p.scope, a.scopes) && Subset(a.scopes, a.client.scopes)
               && ForUser(m.plan, a)
               && m.rid in s.forms && Authenticated(s.forms[m.rid], m.plan.client)
               && RedeemedBy(digest, s.forms[m.rid], m.plan.source.token, a)
  {
    hide Run, RedeemedBy, ForUser, Authenticated, ScopeWithin;
    RunKeepsInv(digest, configured, es);
    var s := Run(digest, configured, es);
    assert RefreshOk(s, token, s.refresh[token]);
    root := s.refresh[token].root;
    assert MintOk(digest, s, root, s.minted[root]);
    assert AuthOk(s.auths[s.refresh[token].origin]);
  }

  /** The event at which an authorization was made: a request of that user that resolved to
      that client and those scopes, for a trusted client, or approved there and then, or
      covered by remembered consent. */
  predicate AuthorizedAt(s: State, e: Event, a: Authorization) {
    && (e.Authorize? || e.Decide?)
    && e.ident == a.ident && Resolve(s.clients, e.p) == Granted(a.client, a.scopes)
    && e.p.redirectUri == a.redirectUri && e.p.challenge == a.challenge && e.p.how == a.how
    && match a.basis
       case TrustedClient => e.Authorize? && a.client.trusted
       case ApprovedNow => e.Decide? && e.approved
       case RememberedConsent =>
         e.Authorize? && !a.client.trusted && Has(s.consent, KeyFor(a.client, a.ident), a.scopes)
  }

  /** The event at which consent was recorded: an approval with "remember". */
  predicate RememberedAt(s: State, e: Event, key: ConsentKey, scopes: seq<string>) {
    && e.Decide? && e.approved && e.remember
    && Resolve(s.clients, e.p).Granted?
    && key == KeyFor(Resolve(s.clients, e.p).client, e.ident) && scopes == Resolve(s.clients, e.p).scopes
  }

  predicate AuthRecorded(s: State, t: State, e: Event) {
    || t.auths == s.auths
    || (&& |t.auths| == |s.auths| + 1 && s.auths <= t.auths
        && var a := t.auths[|s.auths|]; a.at == s.time && AuthorizedAt(s, e, a))
  }

  predicate ConsentRecorded(s: State, t: State, e: Event) {
    || t.log == s.log
    || (&& |t.log| == |s.log| + 1 && s.log <= t.log
        && var entry := t.log[|s.log|];
           entry.Remembered? ==> entry.at == s.time && RememberedAt(s, e, entry.key, entry.scopes))
  }

  lemma IssuingRecords(s: State, p: AuthzParams, client: Client, scopes: seq<string>, ident: Ident, basis: Basis,
                       random: string)
    ensures var t := IssuedCode(s, p, client, scopes, ident, basis, random);
            && t.auths == s.auths + [Authorization(client, ident, p.redirectUri, scopes, p.challenge, p.how, basis,
                                                   s.time)]
            && t.log == s.log && t.time == s.time
  {
  }

  lemma AuthorizingRecords(s: State, p: AuthzParams, ident: Ident, consentUp: bool, random: string)
    ensures var t := Authorizing(s, p, ident, consentUp, random);
            AuthRecorded(s, t, Authorize(p, ident, consentUp, random)) && t.log == s.log && t.time == s.time
  {
    hide Resolve, Has, Fresh, IssuedCode;
    var r := Resolve(s.clients, p);
    if r.Granted? {
      IssuingRecords(s, p, r.client, r.scopes, ident, TrustedClient, random);
      IssuingRecords(s, p, r.client, r.scopes, ident, RememberedConsent, random);
    }
  }

  lemma DecidingRecords(s: State, p: AuthzParams, ident: Ident, approved: bool, remember: bool, consentUp: bool,
                        random: string)
    ensures var t := Deciding(s, p, ident, approved, remember, consentUp, random);
            var e := Decide(p, ident, approved, remember, consentUp, random);
            AuthRecorded(s, t, e) && ConsentRecorded(s, t, e) && t.time == s.time
  {
    hide Resolve, Fresh, ConsentGranted, IssuedCode;
    var r := Resolve(s.clients, p);
    if r.Granted? {
      IssuingRecords(s, p, r.client, r.scopes, ident, ApprovedNow, random);
      IssuingRecords(Remembering(s, r.client, r.scopes, ident), p, r.client, r.scopes, ident, ApprovedNow, random);
    }
  }

  lemma WithdrawingRecords(s: State, key: ConsentKey)
    ensures var t := Withdrawing(s, key); t.auths == s.auths && ConsentRecorded(s, t, Withdraw(key)) && t.time == s.time
  {
  }

  lemma StepRecords(digest: Digest, s: State, e: Event)
    ensures var t := Step(digest, s, e); AuthRecorded(s, t, e) && ConsentRecorded(s, t, e) && t.time == s.time + 1
  {
    hide Authorizing, Deciding, Withdrawing, Submitting, GateMoving, Advancing, AuthorizedAt, RememberedAt;
    match e
    case Authorize(p, ident, consentUp, random) => AuthorizingRecords(s, p, ident, consentUp, random);
    case Decide(p, ident, approved, remember, consentUp, random) =>
      DecidingRecords(s, p, ident, approved, remember, consentUp, random);
    case Withdraw(key) => WithdrawingRecords(s, key);
    case Submit(rid, form) => SubmittingFrame(s, rid, form);
    case Advance(rid, random) => AdvancingFrame(digest, s, rid, random);
    case Gate(ge) => GateMovingFrame(s, ge);
    case _ =>
  }

  /** The record of authorizations and consents is true of the run. */
  predicate AuthTrue(digest: Digest, configured: bool, es: seq<Event>, a: Authorization) {
    a.at < |es| && AuthorizedAt(Run(digest, configured, es[..a.at]), es[a.at], a)
  }

  predicate EntryTrue(digest: Digest, configured: bool, es: seq<Event>, entry: ConsentEntry) {
    entry.Remembered? ==>
          entry.at < |es| && RememberedAt(Run(digest, configured, es[..entry.at]), es[entry.at], entry.key,
                                          entry.scopes)
  }

  ghost predicate RecordsTrue(digest: Digest, configured: bool, es: seq<Event>) {
    var s := Run(digest, configured, es);
    && s.time == |es|
    && (forall i :: 0 <= i < |s.auths| ==> AuthTrue(digest, configured, es, s.auths[i]))
    && (forall i :: 0 <= i < |s.log| ==> EntryTrue(digest, configured, es, s.log[i]))
  }

  lemma TrueLater(digest: Digest, configured: bool, es: seq<Event>, e: Event)
    ensures forall a :: AuthTrue(digest, configured, es, a) ==> AuthTrue(digest, configured, es + [e], a)
    ensures forall entry :: EntryTrue(digest, configured, es, entry) ==> EntryTrue(digest, configured, es + [e], entry)
  {
    hide Run, AuthorizedAt, RememberedAt;
    forall k | 0 <= k < |es| ensures (es + [e])[..k] == es[..k] && (es + [e])[k] == es[k] {
    }
  }

  lemma RunLast(digest: Digest, configured: bool, es: seq<Event>)
    requires es != []
    ensures Run(digest, configured, es) == Step(digest, Run(digest, configured, es[..|es| - 1]), es[|es| - 1])
  {
    hide Step, Init;
  }

  lemma {:induction false} RecordsAreTrue(digest: Digest, configured: bool, es: seq<Event>)
    ensures RecordsTrue(digest, configured, es)
  {
    hide Step, AuthorizedAt, RememberedAt, AuthTrue, EntryTrue;
    if es != [] {
      var before, e := es[..|es| - 1], es[|es| - 1];
      assert es == before + [e];
      RecordsAreTrue(digest, configured, before);
      RecordsStayTrue(digest, configured, before, e);
    }
  }

  lemma RecordsStayTrue(digest: Digest, configured: bool, es: seq<Event>, e: Event)
    requires RecordsTrue(digest, configured, es)
    ensures RecordsTrue(digest, configured, es + [e])
  {
    hide Run, Step, AuthorizedAt, RememberedAt;
    var s := Run(digest, configured, es);
    assert (es + [e])[..|es|] == es;
    RunLast(digest, configured, es + [e]);
    StepRecords(digest, s, e);
    TrueLater(digest, configured, es, e);
  }

  /** What standing consent is: scopes of some record that no later withdrawal cancels. */
  lemma {:induction false} StandingMeans(log: seq<ConsentEntry>, key: ConsentKey, w: string)
    ensures w in Standing(log, key) <==> exists i :: StandsFrom(log, key, w, i)
  {
    hide Norm;
    if log != [] {
      var last := |log| - 1;
      var earlier := log[..last];
      StandingMeans(earlier, key, w);
      if w in Standing(log, key) {
        if log[last].Remembered? && log[last].key == key && w in Norm(log[last].scopes) {
          assert StandsFrom(log, key, w, last);
        } else {
          var i :| StandsFrom(earlier, key, w, i);
          assert StandsFrom(log, key, w, i);
        }
      }
      if i :| StandsFrom(log, key, w, i) {
        if i < last { assert StandsFrom(earlier, key, w, i); }
      }
    }
  }

  predicate StandsFrom(log: seq<ConsentEntry>, key: ConsentKey, w: string, i: int) {
    && 0 <= i < |log| && log[i].Remembered? && log[i].key == key && w in Norm(log[i].scopes)
    && forall j :: i < j < |log| ==> log[j] != Withdrawn(key)
  }

  predicate ConsentedAt(digest: Digest, configured: bool, es: seq<Event>, key: ConsentKey, w: string, step: nat) {
    && step < |es| && es[step].Decide? && es[step].approved && es[step].remember
    && var r := Resolve(Run(digest, configured, es[..step]).clients, es[step].p);
       r.Granted? && key == KeyFor(r.client, es[step].ident) && w in r.scopes
  }

  /** Each token of an untrusted client stands on the user's own word. The authorization it goes
      back to was approved there and then; or each of its scopes stood, at the moment it was
      made, in the consent on record, and had been approved with "remember" at an earlier step by
      the same user, in the same tenant, for the same client. */
  lemma UntrustedNeedsConsent(digest: Digest, configured: bool, es: seq<Event>, origin: nat, w: string)
    returns (step: nat)
    requires var s := Run(digest, configured, es);
             origin < |s.auths| && !s.auths[origin].client.trusted && w in s.auths[origin].scopes
    ensures var a := Run(digest, configured, es).auths[origin];
            var key := KeyFor(a.client, a.ident);
            && AuthTrue(digest, configured, es, a)
            && (|| (a.basis == ApprovedNow && es[a.at].Decide? && es[a.at].approved)
                || (&& a.basis == RememberedConsent
                    && step < a.at && ConsentedAt(digest, configured, es[..a.at], key, w, step)
                    && w in Standing(Run(digest, configured, es[..a.at]).log, key)))
  {
    hide Run, Resolve, Standing, Norm;
    RunKeepsInv(digest, configured, es);
    RecordsAreTrue(digest, configured, es);
    var s := Run(digest, configured, es);
    var a := s.auths[origin];
    assert AuthOk(a) && AuthTrue(digest, configured, es, a);
    step := 0;
    if a.basis == RememberedConsent {
      step := CoveredEarlier(digest, configured, es[..a.at], KeyFor(a.client, a.ident), a.scopes, w);
    }
  }

  /** Scopes covered by the consent on record have each been approved with "remember" before. */
  lemma CoveredEarlier(digest: Digest, configured: bool, es: seq<Event>, key: ConsentKey, scopes: seq<string>,
                       w: string)
    returns (step: nat)
    requires Words(scopes) && w in scopes && Has(Run(digest, configured, es).consent, key, scopes)
    ensures w in Standing(Run(digest, configured, es).log, key)
    ensures ConsentedAt(digest, configured, es, key, w, step)
  {
    hide Run, Resolve, StandsFrom, Standing, Norm;
    RunKeepsInv(digest, configured, es);
    RecordsAreTrue(digest, configured, es);
    var s := Run(digest, configured, es);
    NormOfWords(scopes);
    assert Stored(s.consent, key) == Standing(s.log, key);
    assert w in Norm(scopes);
    StandingMeans(s.log, key, w);
    var i :| StandsFrom(s.log, key, w, i);
    step := StandingStep(digest, configured, es, key, w, i);
  }

  lemma StandingStep(digest: Digest, configured: bool, es: seq<Event>, key: ConsentKey, w: string, i: int)
    returns (step: nat)
    requires RecordsTrue(digest, configured, es) && StandsFrom(Run(digest, configured, es).log, key, w, i)
    ensures ConsentedAt(digest, configured, es, key, w, step)
  {
    hide Run, Resolve, Norm;
    var entry := Run(digest, configured, es).log[i];
    assert EntryTrue(digest, configured, es, entry);
    step := entry.at;
    var r := Resolve(Run(digest, configured, es[..step]).clients, es[step].p);
    ResolvedWords(Run(digest, configured, es[..step]).clients, es[step].p);
    NormOfWords(r.scopes);
  }

  lemma ResolvedWords(clients: map<string, Client>, p: AuthzParams)
    requires Resolve(clients, p).Granted?
    ensures Words(Resolve(clients, p).scopes)
  {
    ResolveMeans(clients, p);
  }

  /** A mint hands its lineage on exactly when its scope has `offline_access`, as the fresh
      refresh token of that very step and with the very scopes of the access token. */
  lemma MintHandsOn(digest: Digest, s: State, e: Event)
    requires Inv(digest, s) && |Step(digest, s, e).minted| == |s.minted| + 1 && UserMint(Step(digest, s, e), |s.minted|)
    ensures var t := Step(digest, s, e);
            var i := |s.minted|;
            && e.Advance?
            && (OFFLINE_ACCESS in ScopesOf(t, i) ==>
                  HeldBy(t, LiveRefresh(e.random)) == Some(Held(OriginOf(t, i), ScopesOf(t, i))) && e.random !in s.born)
            && (OFFLINE_ACCESS !in ScopesOf(t, i) ==> forall h :: !Holds(t, OriginOf(t, i), h))
  {
    hide Inv, Step, Holds, Minting;
    var t := Step(digest, s, e);
    StepMints(digest, s, e);
    StepIsMinting(digest, s, e);
    var m := t.minted[|s.minted|];
    HandedOn(s, m.rid, m.plan, m.call, e.random);
    StepKeepsInv(digest, s, e);
    if OFFLINE_ACCESS !in ScopesOf(t, |s.minted|) { Over(digest, t, |s.minted|); }
  }

  lemma StepIsMinting(digest: Digest, s: State, e: Event)
    requires |Step(digest, s, e).minted| == |s.minted| + 1
    requires e.Advance?
    requires var m := Step(digest, s, e).minted[|s.minted|]; m.rid == e.rid && ReadyToMint(s, m.rid, m.plan, m.call)
    ensures var m := Step(digest, s, e).minted[|s.minted|];
            && Step(digest, s, e) == Minting(s, m.rid, m.plan, m.call, e.random).(time := s.time + 1)
            && (Reissues(m.plan) ==> Fresh(s, e.random))
  {
    hide Minting, Moved, Calling, Reissues, Fresh, Dispatching, ConsumingRefresh;
    MintedLast(s, s.requests[e.rid].next.plan, e.rid, s.requests[e.rid].call.value, e.random);
  }

  lemma MintedLast(s: State, plan: Plan, rid: nat, call: nat, random: string)
    ensures Minting(s, rid, plan, call, random).minted == s.minted + [Minted(plan, rid, call)]
  {
    hide Reissues;
  }

  lemma HandedOn(s: State, rid: nat, plan: Plan, call: nat, random: string)
    requires !plan.source.ForService?
    ensures var t := Minting(s, rid, plan, call, random);
            OFFLINE_ACCESS in Split(plan.scope) ==>
              HeldBy(t, LiveRefresh(random)) == Some(Held(plan.source.origin, Split(plan.scope)))
  {
  }
}
