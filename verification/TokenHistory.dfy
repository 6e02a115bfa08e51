/** The token store over whole histories of issuing, consuming, revoking and waiting: its
    index agrees with its tokens, a revocation is final, and a token resolves exactly when the
    history says it should. */
module TokenHistory {
  import opened Text
  import opened Tokens

  datatype Event =
    | Issue(kind: Kind, uid: string, ttl: nat, token: string)
    | Consume(kind: Kind, token: string)
    | RevokeAll(uid: string)
    | Wait(ms: nat)

  /** The store together with every token it has ever handed out. */
  datatype State = State(ks: Keyspace, used: set<string>)

  /** One event. Random tokens never repeat and are never empty: an `Issue` that would
      break this is not a possible event and changes nothing. */
  function Step(s: State, e: Event): State {
    match e
    case Issue(kind, uid, ttl, token) =>
      if token in s.used || token == "" then s else State(Issued(s.ks, kind, uid, ttl, token), s.used + {token})
    case Consume(kind, token) => s.(ks := Consumed(s.ks, kind, token))
    case RevokeAll(uid) => s.(ks := RevokedAll(s.ks, uid))
    case Wait(ms) => s.(ks := s.ks.(now := s.ks.now + ms))
  }

  function Init(): State {
    State(EmptyKeyspace, {""})
  }

  function Run(es: seq<Event>): State {
    if es == [] then Init() else Step(Run(es[..|es| - 1]), es[|es| - 1])
  }

  /** The index and the token map agree: every token that still resolves is in its uid's
      index, and an indexed token belongs to no one else. No index has a deadline. */
  ghost predicate Agrees(s: State) {
    && (forall k :: k in s.ks.tokens && s.ks.now < s.ks.tokens[k].deadline ==>
          s.ks.tokens[k].value in s.ks.index && k in s.ks.index[s.ks.tokens[k].value].members)
    && (forall u :: u in s.ks.index ==> s.ks.index[u].deadline.None?)
    && (forall u, k :: u in s.ks.index && k in s.ks.index[u].members && k in s.ks.tokens ==> s.ks.tokens[k].value == u)
    && (forall k :: k in s.ks.tokens ==> k.token in s.used && k.token != "")
    && (forall u, k :: u in s.ks.index && k in s.ks.index[u].members ==> k.token in s.used)
    && "" in s.used
  }

  lemma IssueAgrees(s: State, kind: Kind, uid: string, ttl: nat, token: string)
    requires Agrees(s) && token !in s.used
    ensures Agrees(Step(s, Issue(kind, uid, ttl, token)))
  {
    var key := TokenKey(kind, token);
    var t := Issued(s.ks, kind, uid, ttl, token);
    assert t.tokens == s.ks.tokens[key := Slot(uid, s.ks.now + Ms(ttl))];
    assert t.index == s.ks.index[uid := Index(Members(s.ks, uid) + {key}, None)];
  }

  lemma ConsumeAgrees(s: State, kind: Kind, token: string)
    requires Agrees(s)
    ensures Agrees(Step(s, Consume(kind, token)))
  {
    if Peek(s.ks, kind, token).Some? {
      var key, uid := TokenKey(kind, token), Peek(s.ks, kind, token).value;
      var left := Members(s.ks, uid) - {key};
      var t := Consumed(s.ks, kind, token);
      assert t.tokens == s.ks.tokens - {key};
      assert t.index == if left == {} then s.ks.index - {uid} else s.ks.index[uid := Index(left, None)];
      forall k | k in t.tokens && t.now < t.tokens[k].deadline
        ensures t.tokens[k].value in t.index && k in t.index[t.tokens[k].value].members
      {
        if t.tokens[k].value == uid { assert k in left; }
      }
    }
  }

  lemma StepAgrees(s: State, e: Event)
    requires Agrees(s)
    ensures Agrees(Step(s, e))
  {
    match e
    case Issue(kind, uid, ttl, token) =>
      if token !in s.used { IssueAgrees(s, kind, uid, ttl, token); }
    case Consume(kind, token) => ConsumeAgrees(s, kind, token);
    case RevokeAll(uid) =>
    case Wait(ms) =>
  }

  lemma {:induction false} RunAgrees(es: seq<Event>)
    ensures Agrees(Run(es))
  {
    if es != [] {
      RunAgrees(es[..|es| - 1]);
      StepAgrees(Run(es[..|es| - 1]), es[|es| - 1]);
    }
  }

  /** In every reachable state, each token that still resolves is in its uid's live index. */
  lemma {:induction false} IndexCoversLive(es: seq<Event>, kind: Kind, token: string, uid: string)
    requires Peek(Run(es).ks, kind, token) == Some(uid)
    ensures TokenKey(kind, token) in Members(Run(es).ks, uid)
  {
    RunAgrees(es);
  }

  /** The index is asked to live as long as each token, yet it never gets a deadline: the
      conditional expiry leaves a key without one alone. So no reachable index expires. */
  lemma {:induction false} IndexNeverExpires(es: seq<Event>, uid: string)
    requires uid in Run(es).ks.index
    ensures Run(es).ks.index[uid].deadline == None
  {
    RunAgrees(es);
  }

  lemma RevokeExact(s: State, uid: string, kind: Kind, token: string)
    requires Agrees(s)
    ensures var before := Peek(s.ks, kind, token);
            Peek(RevokedAll(s.ks, uid), kind, token) == if before == Some(uid) then None else before
  {
    var key := TokenKey(kind, token);
    if Get(s.ks, key).Some? && s.ks.tokens[key].value != uid {
      assert key !in Members(s.ks, uid);
    }
  }

  /** Bulk revocation ends every token of its uid, of every kind, and no token of anyone else. */
  lemma RevokeIsExact(es: seq<Event>, uid: string, kind: Kind, token: string)
    ensures var before := Peek(Run(es).ks, kind, token);
            Peek(RevokedAll(Run(es).ks, uid), kind, token) == if before == Some(uid) then None else before
  {
    RunAgrees(es);
    RevokeExact(Run(es), uid, kind, token);
  }

  lemma DeadStaysDead(s: State, e: Event, kind: Kind, token: string)
    requires Agrees(s) && token in s.used && Peek(s.ks, kind, token) == None
    ensures token in Step(s, e).used && Peek(Step(s, e).ks, kind, token) == None
  {
  }

  function RunFrom(s: State, es: seq<Event>): State {
    if es == [] then s else Step(RunFrom(s, es[..|es| - 1]), es[|es| - 1])
  }

  lemma {:induction false} DeadForever(s: State, es: seq<Event>, kind: Kind, token: string)
    requires Agrees(s) && token in s.used && Peek(s.ks, kind, token) == None
    ensures Agrees(RunFrom(s, es)) && token in RunFrom(s, es).used
    ensures Peek(RunFrom(s, es).ks, kind, token) == None
  {
    if es != [] {
      DeadForever(s, es[..|es| - 1], kind, token);
      DeadStaysDead(RunFrom(s, es[..|es| - 1]), es[|es| - 1], kind, token);
      StepAgrees(RunFrom(s, es[..|es| - 1]), es[|es| - 1]);
    }
  }

  /** After a bulk revocation no earlier token of that uid ever resolves again, whatever
      happens later. */
  lemma RevokedForGood(es: seq<Event>, uid: string, later: seq<Event>, kind: Kind, token: string)
    requires Peek(Run(es).ks, kind, token) == Some(uid)
    ensures Peek(RunFrom(Step(Run(es), RevokeAll(uid)), later).ks, kind, token) == None
  {
    RunAgrees(es);
    StepAgrees(Run(es), RevokeAll(uid));
    RevokeIsExact(es, uid, kind, token);
    DeadForever(Step(Run(es), RevokeAll(uid)), later, kind, token);
  }

  // ---------------------------------------------------------------- an independent reading

  predicate IssuedIn(es: seq<Event>, token: string) {
    exists i :: 0 <= i < |es| && es[i].Issue? && es[i].token == token
  }

  /** Whom a token belongs to, told from the history alone: the uid of the first event that
      issued it, unless its lifetime has passed, it was consumed, or its owner was revoked.
      `elapsed` is the time since the end of `es`. */
  ghost function Holder(es: seq<Event>, key: TokenKey, elapsed: nat): Option<string> {
    if es == [] then None
    else
      var rest, e := es[..|es| - 1], es[|es| - 1];
      match e
      case Issue(kind, uid, ttl, token) =>
        if TokenKey(kind, token) == key && token != "" && !IssuedIn(rest, token)
        then if elapsed < 1000 * ttl then Some(uid) else None
        else Holder(rest, key, elapsed)
      case Consume(kind, token) =>
        if TokenKey(kind, token) == key then None else Holder(rest, key, elapsed)
      case RevokeAll(uid) =>
        if Holder(rest, key, elapsed) == Some(uid) then None else Holder(rest, key, elapsed)
      case Wait(ms) => Holder(rest, key, elapsed + ms)
  }

  lemma StepUsed(s: State, e: Event)
    requires "" in s.used
    ensures Step(s, e).used == if e.Issue? then s.used + {e.token} else s.used
  {
  }

  lemma IssuedInLast(rest: seq<Event>, e: Event, token: string)
    ensures IssuedIn(rest + [e], token) <==> IssuedIn(rest, token) || (e.Issue? && e.token == token)
  {
    var es := rest + [e];
    if IssuedIn(rest, token) {
      var i :| 0 <= i < |rest| && rest[i].Issue? && rest[i].token == token;
      assert es[i] == rest[i];
    }
    if e.Issue? && e.token == token { assert es[|rest|] == e; }
  }

  lemma {:induction false} UsedIsIssued(es: seq<Event>, token: string)
    ensures token in Run(es).used <==> token == "" || IssuedIn(es, token)
    ensures "" in Run(es).used
  {
    if es != [] {
      var rest, e := es[..|es| - 1], es[|es| - 1];
      assert es == rest + [e];
      UsedIsIssued(rest, token);
      StepUsed(Run(rest), e);
      IssuedInLast(rest, e, token);
    }
  }

  lemma ConsumedRead(s: State, kind: Kind, token: string, key: TokenKey, elapsed: nat)
    requires Agrees(s)
    ensures var t := Consumed(s.ks, kind, token);
            Read(t.tokens, key, t.now + elapsed) ==
              if TokenKey(kind, token) == key then None else Read(s.ks.tokens, key, s.ks.now + elapsed)
  {
  }

  lemma RevokedRead(s: State, uid: string, key: TokenKey, elapsed: nat)
    requires Agrees(s)
    ensures var was, t := Read(s.ks.tokens, key, s.ks.now + elapsed), RevokedAll(s.ks, uid);
            Read(t.tokens, key, t.now + elapsed) == if was == Some(uid) then None else was
  {
    if key in s.ks.tokens && s.ks.now < s.ks.tokens[key].deadline {
      assert key in Members(s.ks, uid) <==> s.ks.tokens[key].value == uid;
    }
  }

  lemma IssuedRead(ks: Keyspace, kind: Kind, uid: string, ttl: nat, token: string, key: TokenKey, elapsed: nat)
    ensures var t := Issued(ks, kind, uid, ttl, token);
            && t.now == ks.now
            && Read(t.tokens, key, t.now + elapsed) ==
                 if TokenKey(kind, token) == key then if elapsed < 1000 * ttl then Some(uid) else None
                 else Read(ks.tokens, key, ks.now + elapsed)
  {
  }

  /** The store answers what the history says, for every run, every token and every moment. */
  lemma {:induction false} StoreTellsHistory(es: seq<Event>, key: TokenKey, elapsed: nat)
    ensures Read(Run(es).ks.tokens, key, Run(es).ks.now + elapsed) == Holder(es, key, elapsed)
  {
    hide Issued, Consumed, RevokedAll, Agrees, Read;
    if es != [] {
      var rest, e := es[..|es| - 1], es[|es| - 1];
      RunAgrees(rest);
      StoreTellsHistory(rest, key, if e.Wait? then elapsed + e.ms else elapsed);
      match e
      case Issue(kind, uid, ttl, token) =>
        UsedIsIssued(rest, token);
        IssuedRead(Run(rest).ks, kind, uid, ttl, token, key, elapsed);
      case Consume(kind, token) => ConsumedRead(Run(rest), kind, token, key, elapsed);
      case RevokeAll(uid) => RevokedRead(Run(rest), uid, key, elapsed);
      case Wait(ms) =>
    } else {
      EmptyRead(key, elapsed);
    }
  }

  lemma EmptyRead(key: TokenKey, elapsed: nat)
    ensures Read(EmptyKeyspace.tokens, key, EmptyKeyspace.now + elapsed) == None
  {
  }
}
