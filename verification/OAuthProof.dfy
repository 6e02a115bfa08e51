/** What it takes to turn an authorization into tokens: the proof that belongs to the challenge
    the client sent, in every run and from one end of the exchange to the other. */
module OAuthProof {
  import opened Text
  import opened OAuth
  import opened OAuthMachine
  import opened OAuthInvariant
  import opened OAuthRuns
  import opened OAuthTheorems
  import opened OAuthLoss
  import opened OAuthAlone
  import AuthorizeEndpoint

  /** Every access token for a user goes back to a request that presented, for the code of its
      authorization, the redirect URI and the proof that authorization calls for: for an S256
      challenge a verifier with that digest, for a plain one the challenge itself, and without a
      challenge the secret of the client. */
  lemma EveryTokenWasProven(digest: Digest, configured: bool, es: seq<Event>, i: nat) returns (root: nat)
    requires UserMint(Run(digest, configured, es), i)
    ensures var s := Run(digest, configured, es);
            && OriginOf(s, i) < |s.auths| && UserMint(s, root) && OriginOf(s, root) == OriginOf(s, i)
            && var a, m := s.auths[OriginOf(s, i)], s.minted[root];
               && m.rid in s.forms && s.forms[m.rid].grant.CodeGrant?
               && var form := s.forms[m.rid];
                  && form.clientId == a.client.id
                  && form.grant.code == m.plan.source.token && form.grant.redirectUri == a.redirectUri
                  && (a.challenge != "" ==> a.how == S256 || a.how == Plain)
                  && (a.challenge != "" && a.how == S256 ==>
                        form.grant.verifier != "" && digest(form.grant.verifier) == a.challenge)
                  && (a.challenge != "" && a.how == Plain ==> form.grant.verifier == a.challenge)
                  && (a.challenge == "" ==> form.secret != "" && m.plan.client.secret == Some(form.secret))
  {
    hide Run;
    root := EveryTokenHasProvenance(digest, configured, es, i);
    RunKeepsInv(digest, configured, es);
    Methods(digest, Run(digest, configured, es), OriginOf(Run(digest, configured, es), i));
  }

  lemma Methods(digest: Digest, s: State, origin: nat)
    requires Inv(digest, s) && origin < |s.auths|
    ensures s.auths[origin].challenge != "" ==> s.auths[origin].how == S256 || s.auths[origin].how == Plain
  {
    hide ConsentOk, ClientsOk, CodesOk, RefreshesOk, RequestsOk, TakenOk, MintsOk, LineageOk, GateOk;
    assert AuthOk(s.auths[origin]);
  }

  /** What is on record as authorized is all that the request asked for among the scopes its client
      was then registered for, in the request's order. */
  lemma AuthorizedWhatWasAsked(digest: Digest, configured: bool, es: seq<Event>, origin: nat) returns (at: seq<nat>)
    requires origin < |Run(digest, configured, es).auths|
    ensures var a := Run(digest, configured, es).auths[origin];
            && a.at < |es| && (es[a.at].Authorize? || es[a.at].Decide?)
            && (forall w :: w in a.scopes <==> w in Split(es[a.at].p.scope) && w in a.client.scopes)
            && Picks(at, Split(es[a.at].p.scope), a.client.scopes, a.scopes)
  {
    hide Run, Resolve, Picks;
    RecordsAreTrue(digest, configured, es);
    var a := Run(digest, configured, es).auths[origin];
    assert AuthTrue(digest, configured, es, a);
    at := GrantedIsWhatWasAsked(Run(digest, configured, es[..a.at]).clients, es[a.at].p);
  }

  // ---------------------------------------------------------------- one code

  /** The client that asked with the digest of a verifier and comes back with the verifier is
      served, if its tenant is let through. */
  lemma HashedVerifierServes(digest: Digest, s: State, rid: nat, form: Form, random: string)
    requires Arrives(s, rid, form, random) && form.grant.CodeGrant?
    requires form.grant.verifier != "" && Lookup(s.codes, form.grant.code).Some?
    requires var p := s.codes[form.grant.code];
             && p.clientId == By(s, form).id && p.redirectUri == form.grant.redirectUri
             && p.challenge == digest(form.grant.verifier) != "" && p.how == S256 && LetThrough(s, p.tenant)
    ensures OAuthAlone.Served(RunFrom(digest, s, CodeSchedule(rid, form, s.calls, random)), rid)
  {
    hide RunFrom, Calls, LetThrough, ClientAuth, OAuthAlone.Served;
    CodeAlone(digest, s, rid, form, random);
    DeservedMeans(digest, s, form);
  }

  /** Whoever has only seen the challenge is refused, unless it is its own digest; and the code
      is gone. */
  lemma BareChallengeRefused(digest: Digest, s: State, rid: nat, form: Form, random: string)
    requires Arrives(s, rid, form, random) && form.grant.CodeGrant? && Lookup(s.codes, form.grant.code).Some?
    requires var p := s.codes[form.grant.code];
             p.challenge != "" && p.how == S256 && digest(p.challenge) != p.challenge == form.grant.verifier
    ensures var t := RunFrom(digest, s, CodeSchedule(rid, form, s.calls, random));
            !OAuthAlone.Served(t, rid) && form.grant.code !in t.codes
  {
    hide RunFrom, Calls, LetThrough, ClientAuth, OAuthAlone.Served;
    CodeAlone(digest, s, rid, form, random);
    DeservedMeans(digest, s, form);
  }

  /** What the endpoint's condition comes to for a code that is there. */
  lemma DeservedMeans(digest: Digest, s: State, form: Form)
    requires ClientAuth(s.clients, form.clientId, form.secret).Some?
    requires form.grant.CodeGrant? && Lookup(s.codes, form.grant.code).Some?
    ensures var p := s.codes[form.grant.code];
            Deserved(digest, s, form, p.tenant) <==>
              && Proven(digest, p.challenge, p.how, form)
              && p.clientId == By(s, form).id && p.redirectUri == form.grant.redirectUri && LetThrough(s, p.tenant)
  {
    hide ClientAuth;
    var p := s.codes[form.grant.code];
    DeservedCode(digest, s, form, p.tenant);
    GoodCodeMeans(digest, p, By(s, form), form.secret != "", form.grant.redirectUri, form.grant.verifier);
  }

  predicate Proven(digest: Digest, challenge: string, how: ChallengeMethod, form: Form)
    requires form.grant.CodeGrant?
  {
    if challenge == "" then form.secret != ""
    else if how in {Plain, PlainOtherCase} then form.grant.verifier == challenge
    else form.grant.verifier != "" && digest(form.grant.verifier) == challenge
  }

  // ---------------------------------------------------------------- from end to end

  /** An authorization changes no request, no client, and nothing about the gate. */
  predicate Beside(s: State, u: State, code: string) {
    && u.forms == s.forms && u.requests == s.requests && u.clients == s.clients && u.gate == s.gate
    && u.calls == s.calls && u.born.Keys <= s.born.Keys + {code}
  }

  lemma NothingDone(s: State, code: string)
    ensures Beside(s, s, code)
  {
  }

  lemma IssuingLeaves(s: State, p: AuthzParams, client: Client, scopes: seq<string>, ident: Ident, basis: Basis,
                      code: string)
    ensures Beside(s, IssuedCode(s, p, client, scopes, ident, basis, code), code)
  {
    hide PayloadFor;
  }

  lemma AuthorizingLeaves(s: State, p: AuthzParams, ident: Ident, consentUp: bool, code: string)
    ensures Beside(s, Authorizing(s, p, ident, consentUp, code), code)
  {
    hide Resolve, Has, KeyFor, IssuedCode, Beside;
    var r := Resolve(s.clients, p);
    NothingDone(s, code);
    if r.Granted? {
      IssuingLeaves(s, p, r.client, r.scopes, ident, TrustedClient, code);
      IssuingLeaves(s, p, r.client, r.scopes, ident, RememberedConsent, code);
    }
  }

  lemma AuthorizeLeaves(digest: Digest, s: State, p: AuthzParams, ident: Ident, consentUp: bool, code: string)
    ensures Beside(s, Step(digest, s, Authorize(p, ident, consentUp, code)), code)
  {
    hide Authorizing;
    AuthorizingLeaves(s, p, ident, consentUp, code);
  }

  /** An authorization that needs no question, and the redemption of its code, with nothing in
      between: the client that redeems is served exactly if it is the one that asked, names the
      same redirect URI, brings the proof for its challenge, and the user's tenant is let through. */
  lemma AuthorizeThenRedeem(digest: Digest, s: State, p: AuthzParams, ident: Ident, consentUp: bool,
                            rid: nat, form: Form, random: string)
    requires Arrives(s, rid, form, random) && form.grant.CodeGrant?
    requires Fresh(s, form.grant.code) && form.grant.code != random
    requires AuthorizeEndpoint.Unasked(s.clients, s.consent, consentUp, p, ident)
    ensures var asking := Authorize(p, ident, consentUp, form.grant.code);
            var t := RunFrom(digest, s, [asking] + CodeSchedule(rid, form, s.calls, random));
            OAuthAlone.Served(t, rid) <==>
              && By(s, form).id == s.clients[p.clientId].id && form.grant.redirectUri == p.redirectUri
              && (p.challenge == "" ==> form.secret != "")
              && (p.challenge != "" && p.how == S256 ==>
                    form.grant.verifier != "" && digest(form.grant.verifier) == p.challenge)
              && (p.challenge != "" && p.how == Plain ==> form.grant.verifier == p.challenge)
              && LetThrough(s, ident.tenant)
  {
    hide RunFrom, Step, Calls, LetThrough, ClientAuth, OAuthAlone.Served, Resolve, Deserved, CodeSchedule, Has;
    var code := form.grant.code;
    var asking := Authorize(p, ident, consentUp, code);
    var u := Step(digest, s, asking);
    AuthorizeLeaves(digest, s, p, ident, consentUp, code);
    AuthorizeAlone(digest, s, p, ident, consentUp, code);
    RunFromAppend(digest, s, [asking], CodeSchedule(rid, form, s.calls, random));
    OneEvent(digest, s, asking);
    CodeAlone(digest, u, rid, form, random);
    DeservedMeans(digest, u, form);
    SameLook(s, u, ident.tenant);
    ResolveMeans(s.clients, p);
  }
}
