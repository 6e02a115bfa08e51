/** Master and replica: the circuit breaker and the connection strategy it drives, and what
    they guarantee over every history of connection attempts. Clock readings and which
    endpoints accept a connection are parameters; time is a real number of seconds. */
module Failover {

  type Time = t: real | 0.0 <= t

  class CircuitBreaker {
    const cooldown: real
    var downUntil: real

    constructor (cooldown: real)
      ensures this.cooldown == cooldown && downUntil == 0.0
    {
      this.cooldown := cooldown;
      downUntil := 0.0;
    }

    predicate ShouldTryPrimary(now: Time)
      reads this
    {
      now >= downUntil
    }

    predicate IsDegraded(now: Time)
      reads this
    {
      now < downUntil
    }

    method Trip(now: Time)
      modifies this
      ensures downUntil == now + cooldown
    {
      downUntil := now + cooldown;
    }

    method Reset()
      modifies this
      ensures downUntil == 0.0
    {
      downUntil := 0.0;
    }
  }

  datatype Config = Config(master: string, replica: string, replicated: bool, cooldown: real) {
    predicate Valid() {
      cooldown >= 0.0 && (replicated ==> master != replica)
    }
  }

  /** One request for a connection: when it starts, when a failure of the master is noticed,
      and which endpoints accept. */
  datatype Request = Request(write: bool, start: Time, noticed: Time, accepting: set<string>)

  datatype Attempt = Attempt(url: string, ok: bool, at: Time)

  datatype Outcome = Connected(url: string) | MasterUnavailable | Unavailable

  /** The endpoints to try, in order; `None` refuses the write outright. */
  datatype Plan = Refuse | Try(urls: seq<string>)

  function Endpoints(cfg: Config, downUntil: real, write: bool, now: Time): Plan {
    if write then
      if cfg.replicated && now < downUntil then Refuse else Try([cfg.master])
    else if !cfg.replicated then Try([cfg.master])
    else if now >= downUntil then Try([cfg.master, cfg.replica])
    else Try([cfg.replica, cfg.master])
  }

  // ---------------------------------------------------------------- opening a connection

  /** What opening a connection does: the endpoints contacted, in order, with their outcome. */
  function Contacts(urls: seq<string>, r: Request): seq<Attempt> {
    if urls == [] then []
    else if urls[0] in r.accepting then [Attempt(urls[0], true, r.noticed)]
    else [Attempt(urls[0], false, r.noticed)] + Contacts(urls[1..], r)
  }

  function Tried(cfg: Config, downUntil: real, r: Request): seq<Attempt> {
    match Endpoints(cfg, downUntil, r.write, r.start)
    case Refuse => []
    case Try(urls) => Contacts(urls, r)
  }

  function Result(r: Request, tried: seq<Attempt>): Outcome {
    if tried != [] && tried[|tried| - 1].ok then Connected(tried[|tried| - 1].url)
    else if r.write then MasterUnavailable
    else Unavailable
  }

  /** How contacting endpoints moves the breaker: only the master counts. */
  function Moved(cfg: Config, downUntil: real, tried: seq<Attempt>): real {
    if tried == [] then downUntil
    else
      var last := tried[|tried| - 1];
      if last.url != cfg.master then Moved(cfg, downUntil, tried[..|tried| - 1])
      else if last.ok then 0.0
      else last.at + cfg.cooldown
  }

  lemma MovedAdd(cfg: Config, downUntil: real, tried: seq<Attempt>, a: Attempt)
    ensures Moved(cfg, downUntil, tried + [a]) ==
      if a.url != cfg.master then Moved(cfg, downUntil, tried) else if a.ok then 0.0 else a.at + cfg.cooldown
  {
    assert (tried + [a])[..|tried|] == tried;
  }

  class LdapClient {
    const cfg: Config
    const breaker: CircuitBreaker

    constructor (cfg: Config)
      ensures this.cfg == cfg && fresh(breaker)
      ensures breaker.cooldown == cfg.cooldown && breaker.downUntil == 0.0
    {
      this.cfg := cfg;
      breaker := new CircuitBreaker(cfg.cooldown);
    }

    method EndpointsFor(write: bool, now: Time) returns (plan: Plan)
      ensures plan == Endpoints(cfg, breaker.downUntil, write, now)
      ensures plan.Refuse? ==> write
    {
      if write {
        if cfg.replicated && breaker.IsDegraded(now) { return Refuse; }
        return Try([cfg.master]);
      }
      if !cfg.replicated { return Try([cfg.master]); }
      return Try(if breaker.ShouldTryPrimary(now) then [cfg.master, cfg.replica] else [cfg.replica, cfg.master]);
    }

    method Open(r: Request) returns (o: Outcome, ghost tried: seq<Attempt>)
      requires breaker.cooldown == cfg.cooldown
      modifies breaker
      ensures tried == Tried(cfg, old(breaker.downUntil), r)
      ensures o == Result(r, tried)
      ensures breaker.downUntil == Moved(cfg, old(breaker.downUntil), tried)
    {
      hide Contacts, Moved, Endpoints;
      NothingTried(cfg, breaker.downUntil, r);
      tried := [];
      var plan := EndpointsFor(r.write, r.start);
      if plan.Refuse? { return MasterUnavailable, []; }
      var urls := plan.urls;
      for i := 0 to |urls|
        invariant Contacts(urls, r) == tried + Contacts(urls[i..], r)
        invariant breaker.downUntil == Moved(cfg, old(breaker.downUntil), tried)
        invariant tried != [] ==> !tried[|tried| - 1].ok
      {
        var url := urls[i];
        var isMaster := url == cfg.master;
        var ok := url in r.accepting;
        ContactsStep(cfg, urls, i, r);
        MovedAdd(cfg, old(breaker.downUntil), tried, Attempt(url, ok, r.noticed));
        tried := tried + [Attempt(url, ok, r.noticed)];
        if ok {
          if isMaster { breaker.Reset(); }
          return Connected(url), tried;
        }
        if isMaster { breaker.Trip(r.noticed); }
      }
      assert urls[|urls|..] == [];
      o := if r.write then MasterUnavailable else Unavailable;
    }
  }

  lemma NothingTried(cfg: Config, downUntil: real, r: Request)
    ensures Contacts([], r) == [] && Moved(cfg, downUntil, []) == downUntil
  {
  }

  lemma ContactsStep(cfg: Config, urls: seq<string>, i: nat, r: Request)
    requires i < |urls|
    ensures Contacts(urls[i..], r) ==
      [Attempt(urls[i], urls[i] in r.accepting, r.noticed)]
      + if urls[i] in r.accepting then [] else Contacts(urls[i + 1..], r)
  {
    assert urls[i..][1..] == urls[i + 1..];
  }

  // ---------------------------------------------------------------- whole histories

  /** The breaker and every contact made so far. */
  datatype State = State(downUntil: real, contacts: seq<Attempt>)

  function Step(cfg: Config, s: State, r: Request): State {
    var tried := Tried(cfg, s.downUntil, r);
    State(Moved(cfg, s.downUntil, tried), s.contacts + tried)
  }

  function Run(cfg: Config, rs: seq<Request>): State {
    if rs == [] then State(0.0, []) else Step(cfg, Run(cfg, rs[..|rs| - 1]), rs[|rs| - 1])
  }

  /** The latest contact with the master, read off the history. */
  function LastMaster(cfg: Config, contacts: seq<Attempt>): (last: seq<Attempt>)
    ensures |last| <= 1
  {
    if contacts == [] then []
    else if contacts[|contacts| - 1].url == cfg.master then [contacts[|contacts| - 1]]
    else LastMaster(cfg, contacts[..|contacts| - 1])
  }

  /** The latest contact with the master failed less than the cooldown before `now`. */
  predicate Cooling(cfg: Config, contacts: seq<Attempt>, now: real) {
    var last := LastMaster(cfg, contacts);
    last != [] && !last[0].ok && now < last[0].at + cfg.cooldown
  }

  lemma {:induction false} LastMasterAppend(cfg: Config, a: seq<Attempt>, b: seq<Attempt>)
    ensures LastMaster(cfg, a + b) == if LastMaster(cfg, b) != [] then LastMaster(cfg, b) else LastMaster(cfg, a)
  {
    if b == [] {
      assert a + b == a;
    } else {
      assert (a + b)[..|a + b| - 1] == a + b[..|b| - 1];
      LastMasterAppend(cfg, a, b[..|b| - 1]);
    }
  }

  lemma {:induction false} MovedByLast(cfg: Config, downUntil: real, tried: seq<Attempt>)
    ensures var last := LastMaster(cfg, tried);
            Moved(cfg, downUntil, tried) ==
              if last == [] then downUntil else if last[0].ok then 0.0 else last[0].at + cfg.cooldown
  {
    if tried != [] { MovedByLast(cfg, downUntil, tried[..|tried| - 1]); }
  }

  /** The breaker holds exactly what the history of master contacts says. */
  lemma {:induction false} BreakerTellsHistory(cfg: Config, rs: seq<Request>)
    ensures var s := Run(cfg, rs);
            var last := LastMaster(cfg, s.contacts);
            s.downUntil == if last == [] || last[0].ok then 0.0 else last[0].at + cfg.cooldown
  {
    if rs != [] {
      BreakerTellsHistory(cfg, rs[..|rs| - 1]);
      var s := Run(cfg, rs[..|rs| - 1]);
      var tried := Tried(cfg, s.downUntil, rs[|rs| - 1]);
      LastMasterAppend(cfg, s.contacts, tried);
      MovedByLast(cfg, s.downUntil, tried);
    }
  }

  lemma ContactsOne(cfg: Config, u: string, r: Request)
    ensures Contacts([u], r) == [Attempt(u, u in r.accepting, r.noticed)]
  {
    assert [u][1..] == [];
  }

  lemma ContactsTwo(cfg: Config, u: string, v: string, r: Request)
    ensures Contacts([u, v], r) ==
      if u in r.accepting then [Attempt(u, true, r.noticed)]
      else [Attempt(u, false, r.noticed), Attempt(v, v in r.accepting, r.noticed)]
  {
    assert [u, v][1..] == [v];
    ContactsOne(cfg, v, r);
  }

  lemma DegradedIffCooling(cfg: Config, rs: seq<Request>, now: Time)
    ensures now < Run(cfg, rs).downUntil <==> Cooling(cfg, Run(cfg, rs).contacts, now)
  {
    BreakerTellsHistory(cfg, rs);
  }

  /** A write contacts the master and nothing else. It is refused without any contact exactly
      in replicated mode while the latest master contact failed less than a cooldown ago;
      otherwise it succeeds exactly when the master accepts. */
  lemma WritesNeverFailOver(cfg: Config, rs: seq<Request>, r: Request)
    requires r.write
    ensures var s := Run(cfg, rs);
            var tried := Tried(cfg, s.downUntil, r);
            && (forall a :: a in tried ==> a.url == cfg.master)
            && (tried == [] <==> cfg.replicated && Cooling(cfg, s.contacts, r.start))
            && (Result(r, tried) == Connected(cfg.master) <==> tried != [] && cfg.master in r.accepting)
            && (!Result(r, tried).Connected? ==> Result(r, tried) == MasterUnavailable)
  {
    DegradedIffCooling(cfg, rs, r.start);
    ContactsOne(cfg, cfg.master, r);
    hide Contacts, Run, Cooling;
  }

  /** A read succeeds exactly when some configured endpoint accepts, connects to one that does,
      and asks the master first unless its latest contact failed less than a cooldown ago. */
  lemma ReadsReachAnyEndpoint(cfg: Config, rs: seq<Request>, r: Request)
    requires !r.write
    ensures var s := Run(cfg, rs);
            var tried := Tried(cfg, s.downUntil, r);
            && (Result(r, tried).Connected? <==>
                  cfg.master in r.accepting || (cfg.replicated && cfg.replica in r.accepting))
            && (Result(r, tried).Connected? ==> Result(r, tried).url in r.accepting)
            && tried != []
            && tried[0].url == (if cfg.replicated && Cooling(cfg, s.contacts, r.start) then cfg.replica else cfg.master)
  {
    DegradedIffCooling(cfg, rs, r.start);
    ContactsOne(cfg, cfg.master, r);
    ContactsTwo(cfg, cfg.master, cfg.replica, r);
    ContactsTwo(cfg, cfg.replica, cfg.master, r);
    hide Contacts, Run, Cooling;
  }

  /** While the master is in its cooldown, reads that the replica answers leave the cooldown
      as it is: they neither contact the master nor extend the refusal of writes. */
  lemma ReplicaReadsKeepCooldown(cfg: Config, s: State, r: Request)
    requires cfg.Valid() && cfg.replicated && !r.write && r.start < s.downUntil && cfg.replica in r.accepting
    ensures Step(cfg, s, r) == State(s.downUntil, s.contacts + [Attempt(cfg.replica, true, r.noticed)])
  {
    ContactsTwo(cfg, cfg.replica, cfg.master, r);
    MovedByLast(cfg, s.downUntil, [Attempt(cfg.replica, true, r.noticed)]);
    assert [Attempt(cfg.replica, true, r.noticed)][..0] == [];
  }

  /** A write or a read that reaches a recovered master ends the cooldown at once. */
  lemma ContactHeals(cfg: Config, s: State, r: Request)
    requires cfg.master in r.accepting && !(cfg.replicated && r.start < s.downUntil)
    ensures Step(cfg, s, r).downUntil == 0.0
  {
    assert [Attempt(cfg.master, true, r.noticed)][..0] == [];
  }
}
