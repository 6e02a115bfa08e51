/** The revocation checker shared by any number of threads. Reading the clock, reading the
    cache, asking the denylist and storing the answer are separate steps of a call; the lock is
    held for the cache steps only, so calls overwrite one another. A denylist entry stays. */
module RevocationRuns {
  import opened Text
  import opened Revocation

  type CallId = nat

  /** Where a call is. `late` records whether the token was on the denylist when it began. */
  datatype Pending =
    | Started(jti: string, readAt: real, late: bool)
    | Missed(jti: string, readAt: real, late: bool)
    | Answered(jti: string, readAt: real, late: bool, answer: Option<bool>)

  datatype Done = Done(jti: string, readAt: real, late: bool, revoked: Option<bool>, permitted: bool)

  /** A lookup that got an answer. */
  datatype Lookup = Lookup(jti: string, at: real, revoked: bool)

  datatype State = State(
    now: real,
    denylist: map<string, real>,    // the time of each revocation
    cache: Cache,
    pending: map<CallId, Pending>,
    done: map<CallId, Done>,
    lookups: seq<Lookup>)

  datatype Event =
    | Tick(dt: real)
    | Revoke(jti: string)
    | Begin(id: CallId, jti: string)
    | Probe(id: CallId)
    | Ask(id: CallId, reachable: bool)
    | Store(id: CallId)
    | ClearCache

  function Init(): State {
    State(0.0, map[], map[], map[], map[], [])
  }

  function Finish(s: State, cfg: Config, id: CallId, revoked: Option<bool>): State
    requires id in s.pending
  {
    var p := s.pending[id];
    s.(pending := s.pending - {id}, done := s.done[id := Done(p.jti, p.readAt, p.late, revoked, Decide(cfg, revoked))])
  }

  function Probed(s: State, cfg: Config, id: CallId): State
    requires id in s.pending
  {
    var p := s.pending[id];
    if !cfg.enabled || p.jti == "" then Finish(s, cfg, id, Some(false))
    else if cfg.cacheTtl > 0.0 && Hit(s.cache, p.jti, p.readAt) then Finish(s, cfg, id, Some(s.cache[p.jti].revoked))
    else s.(pending := s.pending[id := Missed(p.jti, p.readAt, p.late)])
  }

  function Asked(s: State, id: CallId, reachable: bool): State
    requires id in s.pending
  {
    var p := s.pending[id];
    if !reachable then s.(pending := s.pending[id := Answered(p.jti, p.readAt, p.late, None)])
    else
      var revoked := p.jti in s.denylist;
      s.(pending := s.pending[id := Answered(p.jti, p.readAt, p.late, Some(revoked))],
         lookups := s.lookups + [Lookup(p.jti, s.now, revoked)])
  }

  function Stores(s: State, cfg: Config, id: CallId): State
    requires id in s.pending && s.pending[id].Answered?
  {
    var p := s.pending[id];
    Finish(s, cfg, id, p.answer).(cache := Remembered(s.cache, cfg, p.jti, p.answer, p.readAt))
  }

  /** One step; a step that is not enabled changes nothing. */
  function Step(s: State, cfg: Config, e: Event): State {
    match e
    case Tick(dt) => if dt < 0.0 then s else s.(now := s.now + dt)
    case Revoke(jti) => if jti in s.denylist then s else s.(denylist := s.denylist[jti := s.now])
    case Begin(id, jti) =>
      if id in s.pending || id in s.done then s
      else s.(pending := s.pending[id := Started(jti, s.now, jti in s.denylist)])
    case Probe(id) => if id in s.pending && s.pending[id].Started? then Probed(s, cfg, id) else s
    case Ask(id, reachable) => if id in s.pending && s.pending[id].Missed? then Asked(s, id, reachable) else s
    case Store(id) => if id in s.pending && s.pending[id].Answered? then Stores(s, cfg, id) else s
    case ClearCache => s.(cache := map[])
  }

  function Run(cfg: Config, es: seq<Event>): State {
    if es == [] then Init() else Step(Run(cfg, es[..|es| - 1]), cfg, es[|es| - 1])
  }

  // ---------------------------------------------------------------- the invariant

  predicate Backs(l: Lookup, jti: string, revoked: bool, t: real, ttl: real) {
    l.jti == jti && l.revoked == revoked && t < l.at + ttl
  }

  /** Some lookup gave this answer, less than a cache lifetime before `t`. */
  ghost predicate Backed(lookups: seq<Lookup>, jti: string, revoked: bool, t: real, ttl: real) {
    exists i :: 0 <= i < |lookups| && Backs(lookups[i], jti, revoked, t, ttl)
  }

  ghost predicate CacheOk(s: State, cfg: Config) {
    && |s.cache| <= Bound(cfg)
    && forall j, at :: j in s.cache && at < s.cache[j].until ==>
          Backed(s.lookups, j, s.cache[j].revoked, at, cfg.cacheTtl)
  }

  /** A call that began with its token on the denylist never hears from the denylist that it is
      not, and a call whose clock is past the revocation did begin so. */
  ghost predicate PendingOne(s: State, cfg: Config, p: Pending) {
    && p.readAt <= s.now
    && (p.late ==> p.jti in s.denylist)
    && (p.jti in s.denylist && s.denylist[p.jti] < p.readAt ==> p.late)
    && (!p.Started? ==> cfg.enabled && p.jti != "")
    && (p.Answered? && p.answer.Some? ==>
          && (p.late ==> p.answer.value)
          && (p.answer.value ==> p.jti in s.denylist)
          && forall at: real :: at < p.readAt + cfg.cacheTtl ==>
                Backed(s.lookups, p.jti, p.answer.value, at, cfg.cacheTtl))
  }

  ghost predicate PendingOk(s: State, cfg: Config) {
    forall id :: id in s.pending ==> id !in s.done && PendingOne(s, cfg, s.pending[id])
  }

  ghost predicate DoneOk(s: State, cfg: Config, d: Done) {
    && d.permitted == Decide(cfg, d.revoked)
    && (d.late ==> d.jti in s.denylist)
    && (d.jti in s.denylist && s.denylist[d.jti] < d.readAt ==> d.late)
    && (cfg.enabled && d.jti != "" && d.revoked == Some(false) && d.late ==>
          cfg.cacheTtl > 0.0 && Backed(s.lookups, d.jti, false, d.readAt, cfg.cacheTtl))
    && (d.revoked == Some(true) ==> d.jti in s.denylist)
    && d.readAt <= s.now
  }

  ghost predicate DonesOk(s: State, cfg: Config) {
    forall id :: id in s.done ==> DoneOk(s, cfg, s.done[id])
  }

  ghost predicate LookupsOk(s: State) {
    && (forall j :: j in s.denylist ==> s.denylist[j] <= s.now)
    && (forall i :: 0 <= i < |s.lookups| ==>
          var l := s.lookups[i];
          && l.at <= s.now
          && (l.revoked ==> l.jti in s.denylist)
          && (!l.revoked && l.jti in s.denylist ==> l.at <= s.denylist[l.jti]))
  }

  ghost predicate Inv(s: State, cfg: Config) {
    CacheOk(s, cfg) && PendingOk(s, cfg) && DonesOk(s, cfg) && LookupsOk(s)
  }

  lemma BackedGrows(lookups: seq<Lookup>, l: Lookup)
    ensures forall j, v, at, ttl :: Backed(lookups, j, v, at, ttl) ==> Backed(lookups + [l], j, v, at, ttl)
    ensures forall at: real, ttl: real :: at < l.at + ttl ==> Backed(lookups + [l], l.jti, l.revoked, at, ttl)
  {
    var more := lookups + [l];
    forall j, v, at, ttl | Backed(lookups, j, v, at, ttl) ensures Backed(more, j, v, at, ttl) {
      var i :| 0 <= i < |lookups| && Backs(lookups[i], j, v, at, ttl);
      assert Backs(more[i], j, v, at, ttl);
    }
    forall at: real, ttl: real | at < l.at + ttl ensures Backed(more, l.jti, l.revoked, at, ttl) {
      assert Backs(more[|lookups|], l.jti, l.revoked, at, ttl);
    }
  }

  /** A cached answer that is a revocation names a token that is on the denylist. */
  lemma CachedRevocation(s: State, cfg: Config, jti: string, t: real)
    requires Inv(s, cfg) && Backed(s.lookups, jti, true, t, cfg.cacheTtl)
    ensures jti in s.denylist
  {
    var i :| 0 <= i < |s.lookups| && Backs(s.lookups[i], jti, true, t, cfg.cacheTtl);
  }

  lemma FinishKeepsInv(s: State, cfg: Config, id: CallId, revoked: Option<bool>)
    requires Inv(s, cfg) && id in s.pending
    requires var p := s.pending[id]; DoneOk(s, cfg, Done(p.jti, p.readAt, p.late, revoked, Decide(cfg, revoked)))
    ensures Inv(Finish(s, cfg, id, revoked), cfg)
  {
    hide Backed, Bound, Decide;
    var t := Finish(s, cfg, id, revoked);
    SameFacts(s, t, cfg);
  }

  /** Facts about single calls depend on the clock, the denylist and the lookups only. */
  lemma SameFacts(s: State, t: State, cfg: Config)
    requires s.now == t.now && s.denylist == t.denylist && s.lookups == t.lookups
    ensures forall p :: PendingOne(s, cfg, p) <==> PendingOne(t, cfg, p)
    ensures forall d :: DoneOk(s, cfg, d) <==> DoneOk(t, cfg, d)
    ensures LookupsOk(s) <==> LookupsOk(t)
  {
    hide Backed, Decide;
  }

  lemma PendingSet(s: State, cfg: Config, id: CallId, p: Pending)
    requires Inv(s, cfg) && id in s.pending && PendingOne(s, cfg, p)
    ensures Inv(s.(pending := s.pending[id := p]), cfg)
  {
    SameFacts(s, s.(pending := s.pending[id := p]), cfg);
    hide PendingOne, DoneOk, LookupsOk, Backed;
  }

  lemma HitIsBacked(s: State, cfg: Config, p: Pending)
    requires Inv(s, cfg) && PendingOne(s, cfg, p) && cfg.cacheTtl > 0.0 && Hit(s.cache, p.jti, p.readAt)
    ensures var v := Some(s.cache[p.jti].revoked); DoneOk(s, cfg, Done(p.jti, p.readAt, p.late, v, Decide(cfg, v)))
  {
    assert Backed(s.lookups, p.jti, s.cache[p.jti].revoked, p.readAt, cfg.cacheTtl);
    if s.cache[p.jti].revoked { CachedRevocation(s, cfg, p.jti, p.readAt); }
  }

  lemma ProbeKeepsInv(s: State, cfg: Config, id: CallId)
    requires Inv(s, cfg) && id in s.pending && s.pending[id].Started?
    ensures Inv(Probed(s, cfg, id), cfg)
  {
    hide Backed, Finish, CacheOk, DonesOk, LookupsOk;
    var p := s.pending[id];
    if !cfg.enabled || p.jti == "" {
      FinishKeepsInv(s, cfg, id, Some(false));
    } else if cfg.cacheTtl > 0.0 && Hit(s.cache, p.jti, p.readAt) {
      HitIsBacked(s, cfg, p);
      FinishKeepsInv(s, cfg, id, Some(s.cache[p.jti].revoked));
    } else {
      PendingSet(s, cfg, id, Missed(p.jti, p.readAt, p.late));
    }
  }

  lemma LookupAdded(s: State, cfg: Config, l: Lookup)
    requires Inv(s, cfg) && l.at == s.now && (l.revoked <==> l.jti in s.denylist)
    ensures Inv(s.(lookups := s.lookups + [l]), cfg)
  {
    hide Backed, Bound, Decide;
    BackedGrows(s.lookups, l);
  }

  lemma AskKeepsInv(s: State, cfg: Config, id: CallId, reachable: bool)
    requires Inv(s, cfg) && id in s.pending && s.pending[id].Missed?
    ensures Inv(Asked(s, id, reachable), cfg)
  {
    hide Backed, CacheOk, DonesOk, LookupsOk;
    var p := s.pending[id];
    if !reachable {
      PendingSet(s, cfg, id, Answered(p.jti, p.readAt, p.late, None));
    } else {
      var l := Lookup(p.jti, s.now, p.jti in s.denylist);
      LookupAdded(s, cfg, l);
      BackedGrows(s.lookups, l);
      PendingSet(s.(lookups := s.lookups + [l]), cfg, id, Answered(p.jti, p.readAt, p.late, Some(l.revoked)));
    }
  }

  lemma RememberKeepsInv(s: State, cfg: Config, jti: string, answer: Option<bool>, readAt: real)
    requires Inv(s, cfg)
    requires answer.Some? ==>
      forall at: real :: at < readAt + cfg.cacheTtl ==> Backed(s.lookups, jti, answer.value, at, cfg.cacheTtl)
    ensures Inv(s.(cache := Remembered(s.cache, cfg, jti, answer, readAt)), cfg)
  {
    hide Backed, Bound, Inserted, PendingOne, DoneOk;
    var t := s.(cache := Remembered(s.cache, cfg, jti, answer, readAt));
    SameFacts(s, t, cfg);
    if answer.Some? && cfg.cacheTtl > 0.0 {
      InsertedSize(s.cache, cfg, jti, answer.value, readAt);
      forall j, at | j in t.cache && at < t.cache[j].until
        ensures Backed(t.lookups, j, t.cache[j].revoked, at, cfg.cacheTtl)
      {
        InsertedEntries(s.cache, cfg, jti, answer.value, readAt, j);
      }
    }
  }

  lemma StoreKeepsInv(s: State, cfg: Config, id: CallId)
    requires Inv(s, cfg) && id in s.pending && s.pending[id].Answered?
    ensures Inv(Stores(s, cfg, id), cfg)
  {
    var p := s.pending[id];
    FinishKeepsInv(s, cfg, id, p.answer);
    var t := Finish(s, cfg, id, p.answer);
    assert t.cache == s.cache && t.lookups == s.lookups;
    hide Backed, Bound, Finish, Remembered, Inv;
    RememberKeepsInv(t, cfg, p.jti, p.answer, p.readAt);
  }

  lemma EnvironmentKeepsInv(s: State, cfg: Config, e: Event)
    requires Inv(s, cfg) && (e.Tick? || e.Revoke? || e.ClearCache?)
    ensures Inv(Step(s, cfg, e), cfg)
  {
    hide Backed, Probed, Asked, Stores, Decide;
  }

  lemma BeginKeepsInv(s: State, cfg: Config, id: CallId, jti: string)
    requires Inv(s, cfg)
    ensures Inv(Step(s, cfg, Begin(id, jti)), cfg)
  {
    hide Backed, Probed, Asked, Stores, Decide, Bound;
  }

  lemma StepKeepsInv(s: State, cfg: Config, e: Event)
    requires Inv(s, cfg)
    ensures Inv(Step(s, cfg, e), cfg)
  {
    hide Inv, Probed, Asked, Stores;
    match e
    case Tick(dt) => EnvironmentKeepsInv(s, cfg, e);
    case Revoke(jti) => EnvironmentKeepsInv(s, cfg, e);
    case ClearCache => EnvironmentKeepsInv(s, cfg, e);
    case Begin(id, jti) => BeginKeepsInv(s, cfg, id, jti);
    case Probe(id) => if id in s.pending && s.pending[id].Started? { ProbeKeepsInv(s, cfg, id); }
    case Ask(id, reachable) => if id in s.pending && s.pending[id].Missed? { AskKeepsInv(s, cfg, id, reachable); }
    case Store(id) => if id in s.pending && s.pending[id].Answered? { StoreKeepsInv(s, cfg, id); }
  }

  lemma {:induction false} RunKeepsInv(cfg: Config, es: seq<Event>)
    ensures Inv(Run(cfg, es), cfg)
  {
    if es != [] {
      hide Inv, Step;
      RunKeepsInv(cfg, es[..|es| - 1]);
      StepKeepsInv(Run(cfg, es[..|es| - 1]), cfg, es[|es| - 1]);
    }
  }

  // ---------------------------------------------------------------- one check on its own

  /** Whether a check is answered without the denylist, and how. */
  function Answerless(s: State, cfg: Config, jti: string): Option<bool> {
    if !cfg.enabled || jti == "" then Some(false)
    else if cfg.cacheTtl > 0.0 && Hit(s.cache, jti, s.now) then Some(s.cache[jti].revoked)
    else None
  }

  lemma Begins(s: State, cfg: Config, id: CallId, jti: string)
    requires id !in s.pending && id !in s.done
    ensures Step(s, cfg, Begin(id, jti)) == s.(pending := s.pending[id := Started(jti, s.now, jti in s.denylist)])
  {
    hide Probed, Asked, Stores;
  }

  lemma ProbesAlone(s: State, a: State, cfg: Config, id: CallId, jti: string, late: bool)
    requires id !in s.pending && a == s.(pending := s.pending[id := Started(jti, s.now, late)])
    ensures var revoked := Answerless(s, cfg, jti);
            Step(a, cfg, Probe(id)) ==
              if revoked.Some?
              then s.(done := s.done[id := Done(jti, s.now, late, revoked, Decide(cfg, revoked))])
              else s.(pending := s.pending[id := Missed(jti, s.now, late)])
  {
    hide Asked, Stores, Decide;
    assert a.pending - {id} == s.pending;
    assert a.pending[id := Missed(jti, s.now, late)] == s.pending[id := Missed(jti, s.now, late)];
  }

  lemma LooksUpAlone(s: State, b: State, cfg: Config, id: CallId, jti: string, late: bool, reachable: bool)
    requires id !in s.pending && b == s.(pending := s.pending[id := Missed(jti, s.now, late)])
    ensures var answer := if reachable then Some(jti in s.denylist) else None;
            var t := Step(Step(b, cfg, Ask(id, reachable)), cfg, Store(id));
            && t.now == s.now && t.denylist == s.denylist && t.pending == s.pending
            && t.done == s.done[id := Done(jti, s.now, late, answer, Decide(cfg, answer))]
            && t.cache == Remembered(s.cache, cfg, jti, answer, s.now)
  {
    hide Probed, Decide, Remembered;
    var c := Step(b, cfg, Ask(id, reachable));
    assert c.pending - {id} == s.pending;
  }

  lemma NothingMore(t: State, cfg: Config, id: CallId, reachable: bool)
    requires id !in t.pending
    ensures Step(Step(t, cfg, Ask(id, reachable)), cfg, Store(id)) == t
  {
  }

  /** A check that nothing interleaves answers, and leaves in the cache, what the checker's method
      does. */
  lemma CheckAlone(s: State, cfg: Config, id: CallId, jti: string, reachable: bool)
    requires id !in s.pending && id !in s.done
    ensures var t := Step(Step(Step(Step(s, cfg, Begin(id, jti)), cfg, Probe(id)), cfg, Ask(id, reachable)), cfg,
                          Store(id));
            var answer := if reachable then Some(jti in s.denylist) else None;
            var exempt := !cfg.enabled || jti == "";
            var hit := cfg.cacheTtl > 0.0 && Hit(s.cache, jti, s.now);
            && t.now == s.now && t.denylist == s.denylist && t.pending == s.pending && id in t.done
            && t.done[id].permitted == (if exempt then true
                                        else if hit then !s.cache[jti].revoked
                                        else if answer.Some? then !answer.value else cfg.failOpen)
            && t.cache == if exempt || hit then s.cache else Remembered(s.cache, cfg, jti, answer, s.now)
  {
    hide Remembered, Step;
    var late := jti in s.denylist;
    Begins(s, cfg, id, jti);
    var a := Step(s, cfg, Begin(id, jti));
    ProbesAlone(s, a, cfg, id, jti, late);
    var b := Step(a, cfg, Probe(id));
    if Answerless(s, cfg, jti).Some? {
      NothingMore(b, cfg, id, reachable);
    } else {
      LooksUpAlone(s, b, cfg, id, jti, late, reachable);
    }
  }

  // ---------------------------------------------------------------- what follows

  /** The revocation latency, for any number of threads: a call that begins after the
      revocation, with a clock at least the cache lifetime past it, permits the token only if
      the denylist could not be reached and the deployment prefers to serve. */
  lemma RevocationLatency(cfg: Config, es: seq<Event>, id: CallId)
    requires cfg.enabled
    requires id in Run(cfg, es).done && Run(cfg, es).done[id].jti != ""
    ensures var s := Run(cfg, es);
            var d := s.done[id];
            d.late && d.jti in s.denylist && d.readAt >= s.denylist[d.jti] + cfg.cacheTtl && d.permitted ==>
              d.revoked == None && cfg.failOpen
  {
    RunKeepsInv(cfg, es);
    var s := Run(cfg, es);
    var d := s.done[id];
    assert DoneOk(s, cfg, d);
  }

  /** With a cache, a clock that is a whole cache lifetime past the revocation is by itself
      enough: such a call did begin after it. */
  lemma {:induction false} ClockIsEnough(cfg: Config, es: seq<Event>, id: CallId)
    requires cfg.enabled && cfg.cacheTtl > 0.0 && !cfg.failOpen
    requires id in Run(cfg, es).done && Run(cfg, es).done[id].jti != ""
    requires var s := Run(cfg, es); var d := s.done[id];
             d.jti in s.denylist && d.readAt >= s.denylist[d.jti] + cfg.cacheTtl
    ensures !Run(cfg, es).done[id].permitted
  {
    RunKeepsInv(cfg, es);
    assert DoneOk(Run(cfg, es), cfg, Run(cfg, es).done[id]);
    RevocationLatency(cfg, es, id);
  }

  /** A token that has never been revoked is never refused for being revoked: it is permitted
      unless the denylist could not be reached. */
  lemma NoFalseRevocation(cfg: Config, es: seq<Event>, id: CallId)
    requires id in Run(cfg, es).done && Run(cfg, es).done[id].jti !in Run(cfg, es).denylist
    ensures var d := Run(cfg, es).done[id];
            d.permitted || (d.revoked == None && !cfg.failOpen)
  {
    RunKeepsInv(cfg, es);
    assert DoneOk(Run(cfg, es), cfg, Run(cfg, es).done[id]);
  }

  /** The cache never holds more entries than configured (or one, if that is configured lower). */
  lemma {:induction false} CacheBounded(cfg: Config, es: seq<Event>)
    ensures |Run(cfg, es).cache| <= Bound(cfg)
  {
    RunKeepsInv(cfg, es);
  }

  /** An unknown answer leaves the cache as it is and is decided by the fail-open setting alone. */
  lemma {:induction false} UnknownNotCached(cfg: Config, s: State, id: CallId)
    requires id in s.pending && s.pending[id].Answered? && s.pending[id].answer == None
    ensures var t := Step(s, cfg, Store(id));
            t.cache == s.cache && id in t.done && t.done[id].permitted == cfg.failOpen
  {
  }
}
