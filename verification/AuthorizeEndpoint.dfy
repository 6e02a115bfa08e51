/** The authorization endpoints, one request start to end: when a code is issued, for what, and
    what becomes of the user's consent. */
module AuthorizeEndpoint {
  import opened Text
  import opened OAuth

  datatype Answer =
    | Code(code: string)
    | Error(why: AuthzError)
    | ConsentRequired
    | ConsentScreen(client: string, scopes: seq<string>)
    | AccessDenied
    | Unavailable

  /** What a code for this request carries. `origin` is bookkeeping of the model. */
  function NewPayload(clients: map<string, Client>, p: AuthzParams, ident: Ident, origin: nat): CodePayload
    requires Resolve(clients, p).Granted?
  {
    PayloadFor(p, Resolve(clients, p).client, Resolve(clients, p).scopes, ident, origin)
  }

  /** The scopes a code carries, and the consent screen shows, are all that were asked for and may be
      had; the challenge and the redirect URI are those of the request. */
  lemma CodeCarries(clients: map<string, Client>, p: AuthzParams, ident: Ident, origin: nat)
    requires Resolve(clients, p).Granted?
    ensures var c := NewPayload(clients, p, ident, origin);
            && Split(c.scope) == Resolve(clients, p).scopes
            && (forall w :: w in Split(c.scope) <==> w in Split(p.scope) && w in clients[p.clientId].scopes)
            && c.clientId == clients[p.clientId].id && c.user == ident.user && c.tenant == ident.tenant
            && c.redirectUri == p.redirectUri && c.challenge == p.challenge && c.how == p.how
  {
    hide Join;
    ResolveMeans(clients, p);
    SplitJoin(Resolve(clients, p).scopes);
    var _ := GrantedIsWhatWasAsked(clients, p);
  }

  /** A code may be issued without asking the user: for a trusted client, or if consent is on
      record for every scope that would be granted. */
  predicate Unasked(clients: map<string, Client>, consent: Consent, consentUp: bool, p: AuthzParams, ident: Ident) {
    && Resolve(clients, p).Granted?
    && (|| Resolve(clients, p).client.trusted
        || (consentUp && Has(consent, KeyFor(Resolve(clients, p).client, ident), Resolve(clients, p).scopes)))
  }

  class Endpoint {
    const codes: OAuthCodeStore
    const consent: OAuthConsentStore

    constructor (codes: OAuthCodeStore, consent: OAuthConsentStore)
      ensures this.codes == codes && this.consent == consent
    {
      this.codes := codes;
      this.consent := consent;
    }

    method IssueCode(clients: map<string, Client>, p: AuthzParams, client: Client, scopes: seq<string>, ident: Ident,
                     origin: nat, random: string)
      returns (a: Answer)
      requires codes.enabled && Resolve(clients, p) == Granted(client, scopes)
      modifies codes
      ensures a == Code(random) && codes.refresh == old(codes.refresh)
      ensures codes.codes == old(codes.codes)[random := NewPayload(clients, p, ident, origin)]
    {
      var payload := CodePayload(client.id, ident.user, ident.tenant, p.redirectUri, Join(scopes), p.challenge, p.how,
                                 origin);
      var code := codes.IssueCode(payload, random);
      return Code(code);
    }

    /** `consentUp` says whether the consent store answers. */
    method ConsentRemembered(client: Client, scopes: seq<string>, ident: Ident, consentUp: bool) returns (ok: bool)
      ensures ok == (consentUp && Has(consent.rows, ConsentKey(ident.tenant, ident.user, client.id), scopes))
    {
      if !consentUp { return false; }
      ok := consent.HasConsent(ident.tenant, ident.user, client.id, scopes);
    }

    method Authorize(clients: map<string, Client>, p: AuthzParams, ident: Ident, consentUp: bool, origin: nat,
                     random: string)
      returns (a: Answer)
      modifies codes
      ensures a.Code? <==> codes.enabled && Unasked(clients, consent.rows, consentUp, p, ident)
      ensures a.Code? ==>
              a.code == random && codes.codes == old(codes.codes)[random := NewPayload(clients, p, ident, origin)]
      ensures !a.Code? ==>
                && codes.codes == old(codes.codes)
                && a == if !codes.enabled then Unavailable
                      else if Resolve(clients, p).Denied? then Error(Resolve(clients, p).error) else ConsentRequired
      ensures codes.refresh == old(codes.refresh)
    {
      if !codes.enabled { return Unavailable; }
      var r := Resolve(clients, p);
      if r.Denied? { return Error(r.error); }
      if !r.client.trusted {
        var remembered := ConsentRemembered(r.client, r.scopes, ident, consentUp);
        if !remembered { return ConsentRequired; }
      }
      a := IssueCode(clients, p, r.client, r.scopes, ident, origin, random);
    }

    /** The consent screen's first step: the same, except that it shows what is being asked for. */
    method Prepare(clients: map<string, Client>, p: AuthzParams, ident: Ident, consentUp: bool, origin: nat,
                   random: string)
      returns (a: Answer)
      modifies codes
      ensures a.Code? <==> codes.enabled && Unasked(clients, consent.rows, consentUp, p, ident)
      ensures a.Code? ==>
              a.code == random && codes.codes == old(codes.codes)[random := NewPayload(clients, p, ident, origin)]
      ensures !a.Code? ==>
                && codes.codes == old(codes.codes)
                && a == if !codes.enabled then Unavailable else
                        match Resolve(clients, p)
                        case Denied(e) => Error(e)
                        case Granted(client, scopes) => ConsentScreen(client.id, scopes)
      ensures codes.refresh == old(codes.refresh)
    {
      if !codes.enabled { return Unavailable; }
      var r := Resolve(clients, p);
      if r.Denied? { return Error(r.error); }
      var remembered := ConsentRemembered(r.client, r.scopes, ident, consentUp);
      if r.client.trusted || remembered {
        a := IssueCode(clients, p, r.client, r.scopes, ident, origin, random);
      } else {
        a := ConsentScreen(r.client.id, r.scopes);
      }
    }

    /** The consent screen's second step: a code exactly for an approved request that is valid
        now, and consent recorded exactly if that was asked for and the store answers. What was
        remembered then spares the user the next screen for the same scopes. */
    method Decision(clients: map<string, Client>, p: AuthzParams, ident: Ident, approved: bool, remember: bool,
                    consentUp: bool, origin: nat, random: string)
      returns (a: Answer)
      modifies codes, consent
      ensures a.Code? <==> codes.enabled && approved && Resolve(clients, p).Granted?
      ensures a.Code? ==>
              a.code == random && codes.codes == old(codes.codes)[random := NewPayload(clients, p, ident, origin)]
      ensures !a.Code? ==>
                && codes.codes == old(codes.codes)
                && a == if !codes.enabled then Unavailable
                      else if Resolve(clients, p).Denied? then Error(Resolve(clients, p).error) else AccessDenied
      ensures consent.rows == if a.Code? && remember && consentUp
                              then ConsentGranted(old(consent.rows), KeyFor(Resolve(clients, p).client, ident),
                                                  Resolve(clients, p).scopes)
                              else old(consent.rows)
      ensures a.Code? && remember && consentUp ==> Unasked(clients, consent.rows, true, p, ident)
      ensures codes.refresh == old(codes.refresh)
    {
      if !codes.enabled { return Unavailable; }
      var r := Resolve(clients, p);
      if r.Denied? { return Error(r.error); }
      if !approved { return AccessDenied; }
      if remember && consentUp {
        consent.Grant(ident.tenant, ident.user, r.client.id, r.scopes);
      }
      a := IssueCode(clients, p, r.client, r.scopes, ident, origin, random);
    }
  }

  /** Consent covers what it was given for and every smaller request, it adds up over grants, and
      it says nothing about anybody else, any other client or any other tenant. */
  lemma ConsentCovers(consent: Consent, key: ConsentKey, given: seq<string>, asked: seq<string>, other: ConsentKey)
    requires Words(given) && Words(asked)
    ensures var after := ConsentGranted(consent, key, given);
            && (Has(after, key, asked) <==>
                  forall w :: w in asked ==> w in given || (key in consent && w in consent[key]))
            && (other != key ==> (Has(after, other, asked) <==> Has(consent, other, asked)))
            && !Has(after - {key}, key, asked)
  {
    hide Norm;
    NormOfWords(given);
    NormOfWords(asked);
    assert forall w :: w in Norm(asked) <==> w in asked;
    assert forall w :: w in Norm(given) <==> w in given;
    var stored := if key in consent then consent[key] else {};
    assert Has(ConsentGranted(consent, key, given), key, asked) <==> Norm(asked) <= Norm(given) + stored;
  }
}
