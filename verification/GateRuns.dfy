/** The tenant gate shared by any number of threads: reading the clock, reading the cache,
    asking the registry and storing the answer are separate steps, and the steps of different
    calls interleave freely. The registry changes over time. */
module GateRuns {
  import opened Text
  import opened TenantGate

  type CallId = nat

  /** Where a call is: it has read the clock; it has missed the cache; it has an answer. */
  datatype Pending =
    | Started(tenant: string, readAt: real)
    | Missed(tenant: string, readAt: real)
    | Answered(tenant: string, readAt: real, answer: Answer)

  datatype Done = Done(tenant: string, readAt: real, reply: Reply)

  /** A lookup that took place. */
  datatype Lookup = Lookup(tenant: string, at: real, verdict: bool)

  datatype State = State(
    now: real,
    configured: bool,
    registry: map<string, Answer>,
    since: map<string, real>,       // when the registry's verdict on a tenant last changed
    cache: Cache,
    pending: map<CallId, Pending>,
    done: map<CallId, Done>,
    lookups: seq<Lookup>)

  function Registered(registry: map<string, Answer>, tenant: string): Answer {
    if tenant in registry then registry[tenant] else NotFound
  }

  function Since(since: map<string, real>, tenant: string): real {
    if tenant in since then since[tenant] else 0.0
  }

  datatype Event =
    | Tick(dt: real)
    | SetRegistry(tenant: string, answer: Answer)
    | Begin(id: CallId, tenant: string)
    | Probe(id: CallId)
    | Ask(id: CallId)
    | Store(id: CallId)

  function Init(configured: bool): State {
    State(0.0, configured, map[], map[], map[], map[], map[], [])
  }

  function Finish(s: State, id: CallId, reply: Reply): State
    requires id in s.pending
  {
    var p := s.pending[id];
    s.(pending := s.pending - {id}, done := s.done[id := Done(p.tenant, p.readAt, reply)])
  }

  function SetRegistryTo(s: State, tenant: string, answer: Answer): State {
    var changed := Verdict(answer) != Verdict(Registered(s.registry, tenant));
    s.(registry := s.registry[tenant := answer],
       since := if changed then s.since[tenant := s.now] else s.since)
  }

  /** What reading the cache decides, if anything: the reply to give without a lookup. */
  function ProbeReply(s: State, p: Pending): Option<Reply> {
    if p.tenant == "" then Some(REFUSED)
    else if Hit(s.cache, p.tenant, p.readAt) then Some(Reply(s.cache[p.tenant].admits, s.cache[p.tenant].reason))
    else if !s.configured then Some(REFUSED)
    else None
  }

  function Probed(s: State, id: CallId): State
    requires id in s.pending
  {
    var p := s.pending[id];
    match ProbeReply(s, p)
    case Some(reply) => Finish(s, id, reply)
    case None => s.(pending := s.pending[id := Missed(p.tenant, p.readAt)])
  }

  function Asked(s: State, id: CallId): State
    requires id in s.pending
  {
    var p := s.pending[id];
    var a := Registered(s.registry, p.tenant);
    s.(pending := s.pending[id := Answered(p.tenant, p.readAt, a)],
       lookups := s.lookups + [Lookup(p.tenant, s.now, Verdict(a))])
  }

  function Stores(s: State, id: CallId): State
    requires id in s.pending && s.pending[id].Answered?
  {
    var p := s.pending[id];
    Finish(s, id, Reply(Verdict(p.answer), ReasonFor(p.answer)))
    .(cache := Stored(s.cache, p.tenant, p.readAt, p.answer))
  }

  /** One step; a step that is not enabled changes nothing. */
  function Step(s: State, e: Event): State {
    match e
    case Tick(dt) => if dt < 0.0 then s else s.(now := s.now + dt)
    case SetRegistry(tenant, answer) => SetRegistryTo(s, tenant, answer)
    case Begin(id, tenant) =>
      if id in s.pending || id in s.done then s else s.(pending := s.pending[id := Started(tenant, s.now)])
    case Probe(id) => if id in s.pending && s.pending[id].Started? then Probed(s, id) else s
    case Ask(id) => if id in s.pending && s.pending[id].Missed? then Asked(s, id) else s
    case Store(id) => if id in s.pending && s.pending[id].Answered? then Stores(s, id) else s
  }

  function Run(configured: bool, es: seq<Event>): State {
    if es == [] then Init(configured) else Step(Run(configured, es[..|es| - 1]), es[|es| - 1])
  }

  // ---------------------------------------------------------------- the invariant

  /** Some lookup gave this verdict on the tenant, less than its lifetime before `t`. */
  ghost predicate Backed(lookups: seq<Lookup>, tenant: string, verdict: bool, t: real) {
    exists i :: 0 <= i < |lookups| && Backs(lookups[i], tenant, verdict, t)
  }

  predicate Backs(l: Lookup, tenant: string, verdict: bool, t: real) {
    l.tenant == tenant && l.verdict == verdict && t < l.at + Ttl(verdict)
  }

  ghost predicate CacheOk(s: State) {
    forall t :: t in s.cache ==>
      && t != ""
      && (s.cache[t].reason == NoReason <==> s.cache[t].admits)
      && forall at: real :: at < s.cache[t].deadline ==> Backed(s.lookups, t, s.cache[t].admits, at)
  }

  ghost predicate PendingOk(s: State) {
    forall id :: id in s.pending ==>
      && id !in s.done
      && s.pending[id].readAt <= s.now
      && (!s.pending[id].Started? ==> s.pending[id].tenant != "" && s.configured)
      && (s.pending[id].Answered? ==>
            forall at: real :: at < s.pending[id].readAt + Ttl(Verdict(s.pending[id].answer)) ==>
              Backed(s.lookups, s.pending[id].tenant, Verdict(s.pending[id].answer), at))
  }

  predicate DoneOk(s: State, d: Done) {
    && (d.reply.reason == NoReason <==> d.reply.admits)
    && (d.tenant == "" ==> !d.reply.admits)
    && d.readAt <= s.now
  }

  ghost predicate DonesOk(s: State) {
    forall id :: id in s.done ==>
      && DoneOk(s, s.done[id])
      && (s.done[id].reply.admits ==> Backed(s.lookups, s.done[id].tenant, true, s.done[id].readAt))
      && (!s.done[id].reply.admits && s.configured && s.done[id].tenant != "" ==>
            Backed(s.lookups, s.done[id].tenant, false, s.done[id].readAt))
  }

  /** Lookups that disagree with the registry's present verdict are not younger than its last
      change. */
  ghost predicate LookupsOk(s: State) {
    && (forall t :: t in s.since ==> s.since[t] <= s.now)
    && (forall i :: 0 <= i < |s.lookups| ==>
          && s.lookups[i].at <= s.now
          && (s.lookups[i].verdict != Verdict(Registered(s.registry, s.lookups[i].tenant)) ==>
                s.lookups[i].at <= Since(s.since, s.lookups[i].tenant)))
  }

  ghost predicate Inv(s: State) {
    0.0 <= s.now && CacheOk(s) && PendingOk(s) && DonesOk(s) && LookupsOk(s)
  }

  lemma BackedGrows(lookups: seq<Lookup>, l: Lookup)
    ensures forall t, v, at :: Backed(lookups, t, v, at) ==> Backed(lookups + [l], t, v, at)
    ensures forall at: real :: Backs(l, l.tenant, l.verdict, at) ==> Backed(lookups + [l], l.tenant, l.verdict, at)
  {
    var more := lookups + [l];
    forall t, v, at | Backed(lookups, t, v, at) ensures Backed(more, t, v, at) {
      var i :| 0 <= i < |lookups| && Backs(lookups[i], t, v, at);
      assert Backs(more[i], t, v, at);
    }
    assert more[|lookups|] == l;
  }

  /** Giving a reply keeps the invariant if the reply is backed. */
  lemma FinishKeepsInv(s: State, id: CallId, reply: Reply)
    requires Inv(s) && id in s.pending
    requires DoneOk(s, Done(s.pending[id].tenant, s.pending[id].readAt, reply))
    requires reply.admits ==> Backed(s.lookups, s.pending[id].tenant, true, s.pending[id].readAt)
    requires !reply.admits && s.configured && s.pending[id].tenant != "" ==>
               Backed(s.lookups, s.pending[id].tenant, false, s.pending[id].readAt)
    ensures Inv(Finish(s, id, reply))
  {
    hide Backed, Verdict;
  }

  lemma ProbeKeepsInv(s: State, id: CallId)
    requires Inv(s) && id in s.pending && s.pending[id].Started?
    ensures Inv(Probed(s, id))
  {
    hide Backed, Verdict, Finish;
    var p := s.pending[id];
    var reply := ProbeReply(s, p);
    if reply.Some? {
      if p.tenant != "" && Hit(s.cache, p.tenant, p.readAt) {
        assert Backed(s.lookups, p.tenant, s.cache[p.tenant].admits, p.readAt);
      }
      hide ProbeReply, CacheOk, DonesOk, LookupsOk;
      FinishKeepsInv(s, id, reply.value);
    }
  }

  lemma AskKeepsInv(s: State, id: CallId)
    requires Inv(s) && id in s.pending && s.pending[id].Missed?
    ensures Inv(Asked(s, id))
  {
    hide Backed, Verdict;
    var p := s.pending[id];
    BackedGrows(s.lookups, Lookup(p.tenant, s.now, Verdict(Registered(s.registry, p.tenant))));
  }

  lemma CachingKeepsInv(s: State, tenant: string, readAt: real, a: Answer)
    requires Inv(s) && tenant != ""
    requires forall at: real :: at < readAt + Ttl(Verdict(a)) ==> Backed(s.lookups, tenant, Verdict(a), at)
    ensures Inv(s.(cache := Stored(s.cache, tenant, readAt, a)))
  {
    ReasonsAreHonest(a);
    hide Backed, Verdict, ReasonFor;
  }

  lemma StoreKeepsInv(s: State, id: CallId)
    requires Inv(s) && id in s.pending && s.pending[id].Answered?
    ensures Inv(Stores(s, id))
  {
    var p := s.pending[id];
    var reply := Reply(Verdict(p.answer), ReasonFor(p.answer));
    ReasonsAreHonest(p.answer);
    assert Backed(s.lookups, p.tenant, Verdict(p.answer), p.readAt);
    FinishFrame(s, id, reply);
    hide Backed, Verdict, ReasonFor, Finish, Stored, CacheOk, DonesOk, LookupsOk;
    FinishKeepsInv(s, id, reply);
    CachingKeepsInv(Finish(s, id, reply), p.tenant, p.readAt, p.answer);
  }

  lemma FinishFrame(s: State, id: CallId, reply: Reply)
    requires id in s.pending
    ensures var t := Finish(s, id, reply);
            t.cache == s.cache && t.lookups == s.lookups && t.registry == s.registry && t.since == s.since
            && t.now == s.now && t.configured == s.configured && t.pending == s.pending - {id}
            && t.done == s.done[id := Done(s.pending[id].tenant, s.pending[id].readAt, reply)]
  {
  }

  lemma EnvironmentKeepsInv(s: State, e: Event)
    requires Inv(s) && (e.Tick? || e.SetRegistry?)
    ensures Inv(Step(s, e))
  {
    hide Backed, Verdict, Probed, Asked, Stores;
  }

  lemma BeginKeepsInv(s: State, id: CallId, tenant: string)
    requires Inv(s)
    ensures Inv(Step(s, Begin(id, tenant)))
  {
    hide Backed, Verdict, Probed, Asked, Stores, SetRegistryTo;
  }

  lemma StepKeepsInv(s: State, e: Event)
    requires Inv(s)
    ensures Inv(Step(s, e))
  {
    hide Inv, Probed, Asked, Stores, SetRegistryTo;
    match e
    case Tick(dt) => EnvironmentKeepsInv(s, e);
    case SetRegistry(tenant, answer) => EnvironmentKeepsInv(s, e);
    case Begin(id, tenant) => BeginKeepsInv(s, id, tenant);
    case Probe(id) => if id in s.pending && s.pending[id].Started? { ProbeKeepsInv(s, id); }
    case Ask(id) => if id in s.pending && s.pending[id].Missed? { AskKeepsInv(s, id); }
    case Store(id) => if id in s.pending && s.pending[id].Answered? { StoreKeepsInv(s, id); }
  }

  lemma {:induction false} RunKeepsInv(configured: bool, es: seq<Event>)
    ensures Inv(Run(configured, es))
  {
    hide Step;
    if es != [] {
      RunKeepsInv(configured, es[..|es| - 1]);
      StepKeepsInv(Run(configured, es[..|es| - 1]), es[|es| - 1]);
    } else {
      InitInv(configured);
    }
  }

  lemma InitInv(configured: bool)
    ensures Inv(Init(configured))
  {
  }

  // ---------------------------------------------------------------- the two bounds

  /** Consequences of the invariant, usable in any machine that contains a gate. */
  lemma RefusedOnceNotLive(s: State, id: CallId)
    requires Inv(s) && id in s.done
    requires !Verdict(Registered(s.registry, s.done[id].tenant))
    requires s.done[id].readAt >= Since(s.since, s.done[id].tenant) + ADMIT_TTL
    ensures !s.done[id].reply.admits && s.done[id].reply.reason != NoReason
  {
  }

  lemma AdmittedOnceLive(s: State, id: CallId)
    requires Inv(s) && id in s.done && s.configured && s.done[id].tenant != ""
    requires Verdict(Registered(s.registry, s.done[id].tenant))
    requires s.done[id].readAt >= Since(s.since, s.done[id].tenant) + REFUSE_TTL
    ensures s.done[id].reply == Reply(true, NoReason)
  {
  }

  /** However calls interleave: once the registry has not said live since `s`, no call whose
      clock reads `s + 60` or later admits; once it has answered live since `s`, every call
      whose clock reads `s + 10` or later admits. */
  lemma GateBounds(configured: bool, es: seq<Event>, id: CallId)
    requires id in Run(configured, es).done
    ensures var s := Run(configured, es);
            var d := s.done[id];
            var live := Verdict(Registered(s.registry, d.tenant));
            && (!live && d.readAt >= Since(s.since, d.tenant) + 60.0 ==> !d.reply.admits)
            && (live && d.readAt >= Since(s.since, d.tenant) + 10.0 && configured && d.tenant != "" ==>
                  d.reply.admits)
            && (d.reply.reason == NoReason <==> d.reply.admits)
  {
    RunKeepsInv(configured, es);
    ConfiguredStays(configured, es);
    var s := Run(configured, es);
    var d := s.done[id];
    var live := Verdict(Registered(s.registry, d.tenant));
    if !live && d.readAt >= Since(s.since, d.tenant) + ADMIT_TTL {
      RefusedOnceNotLive(s, id);
    }
    if live && d.readAt >= Since(s.since, d.tenant) + REFUSE_TTL && configured && d.tenant != "" {
      AdmittedOnceLive(s, id);
    }
  }

  lemma StepFrame(s: State, e: Event)
    ensures var t := Step(s, e);
            t.configured == s.configured && s.now <= t.now
  {
  }

  lemma {:induction false} ConfiguredStays(configured: bool, es: seq<Event>)
    ensures Run(configured, es).configured == configured
  {
    hide Step;
    if es != [] {
      ConfiguredStays(configured, es[..|es| - 1]);
      StepFrame(Run(configured, es[..|es| - 1]), es[|es| - 1]);
    }
  }

  /** Every admission is a lookup's: some lookup found the tenant live less than 60 seconds
      before the call read its clock, and every refusal of a named tenant by a configured gate
      is a lookup's that did not, less than 10 seconds before. */
  lemma EveryReplyIsBacked(configured: bool, es: seq<Event>, id: CallId)
    requires id in Run(configured, es).done
    ensures var s := Run(configured, es);
            var d := s.done[id];
            configured && d.tenant != "" ==> Backed(s.lookups, d.tenant, d.reply.admits, d.readAt)
  {
    RunKeepsInv(configured, es);
    ConfiguredStays(configured, es);
  }

  /** Between two moments, the reply to a call is final and its tenant never changes. */
  predicate CallKept(s: State, t: State, id: CallId) {
    && (id in s.done ==> id in t.done && t.done[id] == s.done[id])
    && (id in s.pending ==> id in t.pending || id in t.done)
    && (id in t.pending ==> id in s.pending && t.pending[id].tenant == s.pending[id].tenant)
    && (id in t.done ==> id in s.done || (id in s.pending && t.done[id].tenant == s.pending[id].tenant))
  }

  lemma FinishKeepsCall(s: State, mover: CallId, reply: Reply, id: CallId)
    requires mover in s.pending && mover !in s.done
    ensures CallKept(s, Finish(s, mover, reply), id)
  {
  }

  lemma ProbeKeepsCall(s: State, mover: CallId, id: CallId)
    requires mover in s.pending && mover !in s.done
    ensures CallKept(s, Probed(s, mover), id)
  {
    hide Finish, ProbeReply;
    var reply := ProbeReply(s, s.pending[mover]);
    if reply.Some? { FinishKeepsCall(s, mover, reply.value, id); }
  }

  lemma AskKeepsCall(s: State, mover: CallId, id: CallId)
    requires mover in s.pending && mover !in s.done
    ensures CallKept(s, Asked(s, mover), id)
  {
    hide Registered, Verdict;
  }

  lemma StoreKeepsCall(s: State, mover: CallId, id: CallId)
    requires mover in s.pending && s.pending[mover].Answered? && mover !in s.done
    ensures CallKept(s, Stores(s, mover), id)
  {
    hide Finish, Stored, Verdict, ReasonFor;
    FinishKeepsCall(s, mover, Reply(Verdict(s.pending[mover].answer), ReasonFor(s.pending[mover].answer)), id);
  }

  lemma StepKeepsCall(s: State, e: Event, id: CallId)
    requires forall other :: other in s.pending ==> other !in s.done
    ensures if e.Begin? && e.id == id && id !in s.pending && id !in s.done
            then id in Step(s, e).pending && Step(s, e).pending[id].tenant == e.tenant && id !in Step(s, e).done
            else CallKept(s, Step(s, e), id)
  {
    hide Verdict, Registered, Probed, Asked, Stores;
    match e
    case Probe(mover) => if mover in s.pending && s.pending[mover].Started? { ProbeKeepsCall(s, mover, id); }
    case Ask(mover) => if mover in s.pending && s.pending[mover].Missed? { AskKeepsCall(s, mover, id); }
    case Store(mover) => if mover in s.pending && s.pending[mover].Answered? { StoreKeepsCall(s, mover, id); }
    case _ =>
  }

  // ---------------------------------------------------------------- one admission after another

  /** A call under way that cannot spoil an admission lasting until `until`: it has not looked at
      the cache yet, or it brings an admission that lasts as long. */
  predicate Harmless(p: Pending, until: real) {
    p.Started? || (p.Answered? && Verdict(p.answer) && until <= p.readAt + ADMIT_TTL)
  }

  /** The cache admits the tenant at least until `until`, and no call for it under way spoils that. */
  ghost predicate Quiet(s: State, tenant: string, until: real) {
    && tenant in s.cache && s.cache[tenant].admits && until <= s.cache[tenant].deadline
    && forall id :: id in s.pending && s.pending[id].tenant == tenant ==> Harmless(s.pending[id], until)
  }

  lemma StepStaysQuiet(s: State, e: Event, tenant: string, until: real)
    requires Quiet(s, tenant, until) && PendingOk(s) && s.now < until
    ensures Quiet(Step(s, e), tenant, until)
  {
    hide Backed, Verdict, ReasonFor;
  }

  function RunFrom(s: State, es: seq<Event>): State {
    if es == [] then s else Step(RunFrom(s, es[..|es| - 1]), es[|es| - 1])
  }

  lemma {:induction false} StaysQuiet(s: State, es: seq<Event>, tenant: string, until: real)
    requires Inv(s) && Quiet(s, tenant, until) && RunFrom(s, es).now < until
    ensures Inv(RunFrom(s, es)) && Quiet(RunFrom(s, es), tenant, until)
  {
    hide Step, CacheOk, DonesOk, LookupsOk;
    if es != [] {
      var before := RunFrom(s, es[..|es| - 1]);
      StepFrame(before, es[|es| - 1]);
      StaysQuiet(s, es[..|es| - 1], tenant, until);
      StepKeepsInv(before, es[|es| - 1]);
      StepStaysQuiet(before, es[|es| - 1], tenant, until);
    }
  }

  lemma StepWhileQuiet(s: State, e: Event, tenant: string, until: real, id: CallId)
    requires Inv(s) && Quiet(s, tenant, until) && s.now < until
    requires id in Step(s, e).done && Step(s, e).done[id].tenant == tenant
    ensures (id in s.done && Step(s, e).done[id] == s.done[id]) || Step(s, e).done[id].reply.admits
  {
    hide Backed, Verdict, ReasonFor, LookupsOk, DonesOk;
  }

  /** From a quiet moment on, and while the clock is below the deadline, every call for that
      tenant that finishes is admitted: the check before a refresh covers the one at the mint. */
  lemma {:induction false} QuietAdmits(s: State, es: seq<Event>, tenant: string, until: real, id: CallId)
    requires Inv(s) && Quiet(s, tenant, until) && RunFrom(s, es).now < until
    requires id !in s.done && id in RunFrom(s, es).done && RunFrom(s, es).done[id].tenant == tenant
    ensures RunFrom(s, es).done[id].reply.admits
  {
    hide Step, Inv;
    if es != [] {
      var before := RunFrom(s, es[..|es| - 1]);
      StepFrame(before, es[|es| - 1]);
      StaysQuiet(s, es[..|es| - 1], tenant, until);
      StepWhileQuiet(before, es[|es| - 1], tenant, until, id);
      if !RunFrom(s, es).done[id].reply.admits {
        QuietAdmits(s, es[..|es| - 1], tenant, until, id);
      }
    }
  }

  /** An admission that finds no other call for its tenant past its look at the cache opens a
      quiet stretch, which lasts to the deadline now in the cache. */
  lemma AdmissionMakesQuiet(s: State, e: Event, id: CallId)
    requires Inv(s) && id !in s.done && id in Step(s, e).done && Step(s, e).done[id].reply.admits
    requires forall other :: other in s.pending && other != id && s.pending[other].tenant == s.pending[id].tenant ==>
               s.pending[other].Started?
    ensures var t := Step(s, e);
            var tenant := t.done[id].tenant;
            tenant in t.cache && t.done[id].readAt < t.cache[tenant].deadline
                  && Quiet(t, tenant, t.cache[tenant].deadline)
  {
    hide Backed, Verdict, ReasonFor, Registered, CacheOk, DonesOk, LookupsOk;
  }

  lemma {:induction false} RunFromAppend(s: State, a: seq<Event>, b: seq<Event>)
    ensures RunFrom(s, a + b) == RunFrom(RunFrom(s, a), b)
  {
    hide Step;
    if b == [] {
      assert a + b == a;
    } else {
      assert (a + b)[..|a + b| - 1] == a + b[..|b| - 1];
      RunFromAppend(s, a, b[..|b| - 1]);
    }
  }

  // ---------------------------------------------------------------- exactly when an admission covers

  lemma AloneAnswered(s: State, id: CallId, tenant: string)
    requires id !in s.pending && id !in s.done && ProbeReply(s, Started(tenant, s.now)).Some?
    ensures var reply := ProbeReply(s, Started(tenant, s.now)).value;
            Step(Step(Step(Step(s, Begin(id, tenant)), Probe(id)), Ask(id)), Store(id))
            == s.(done := s.done[id := Done(tenant, s.now, reply)])
  {
    hide Registered, Verdict, ReasonFor, Asked, Stores, SetRegistryTo;
    var s1 := s.(pending := s.pending[id := Started(tenant, s.now)]);
    assert Step(s, Begin(id, tenant)) == s1;
    assert s1.pending - {id} == s.pending;
  }

  lemma AloneMissed(s: State, id: CallId, tenant: string)
    requires id !in s.pending && id !in s.done && ProbeReply(s, Started(tenant, s.now)) == None
    ensures Step(Step(s, Begin(id, tenant)), Probe(id)) == s.(pending := s.pending[id := Missed(tenant, s.now)])
  {
    hide Registered, Verdict, ReasonFor, Asked, Stores, SetRegistryTo;
    var s1 := s.(pending := s.pending[id := Started(tenant, s.now)]);
    assert Step(s, Begin(id, tenant)) == s1;
    assert s1.pending[id := Missed(tenant, s.now)] == s.pending[id := Missed(tenant, s.now)];
  }

  lemma AloneLooksUp(s: State, id: CallId, tenant: string)
    requires id !in s.pending && id !in s.done
    ensures var a := Registered(s.registry, tenant);
            var m := s.(pending := s.pending[id := Missed(tenant, s.now)]);
            Step(Step(m, Ask(id)), Store(id))
            == s.(cache := Stored(s.cache, tenant, s.now, a),
                  done := s.done[id := Done(tenant, s.now, Reply(Verdict(a), ReasonFor(a)))],
                  lookups := s.lookups + [Lookup(tenant, s.now, Verdict(a))])
  {
    hide Registered, Verdict, ReasonFor, Stored, Probed, SetRegistryTo;
    var m := s.(pending := s.pending[id := Missed(tenant, s.now)]);
    var k := Step(m, Ask(id));
    assert k.pending == s.pending[id := Answered(tenant, s.now, Registered(s.registry, tenant))];
    assert k.pending - {id} == s.pending;
  }

  /** A call on its own, from start to end, is the sequential one. */
  lemma GateAlone(s: State, id: CallId, tenant: string)
    requires id !in s.pending && id !in s.done
    ensures var t := RunFrom(s, [Begin(id, tenant), Probe(id), Ask(id), Store(id)]);
            var (cache, reply) := GateCall(s.cache, s.configured, tenant, s.now, Registered(s.registry, tenant));
            && t.cache == cache && t.done == s.done[id := Done(tenant, s.now, reply)] && t.pending == s.pending
            && t.now == s.now && t.registry == s.registry && t.since == s.since && t.configured == s.configured
  {
    hide RunFrom, Registered, Verdict, ReasonFor, Step, Stored;
    FourSteps(s, Begin(id, tenant), Probe(id), Ask(id), Store(id));
    if ProbeReply(s, Started(tenant, s.now)).Some? {
      AloneAnswered(s, id, tenant);
    } else {
      AloneMissed(s, id, tenant);
      AloneLooksUp(s, id, tenant);
    }
  }

  /** The registry does not say live and the cache does not admit: a call made now is refused. */
  predicate Cold(s: State, tenant: string) {
    !Verdict(Registered(s.registry, tenant)) && !(Hit(s.cache, tenant, s.now) && s.cache[tenant].admits)
  }

  /** The tenant stops being live, and the call asks if it has not yet, and stores. */
  lemma Spoilt(s: State, tenant: string, id: CallId)
    requires id in s.pending && s.pending[id].tenant == tenant && !s.pending[id].Started?
    ensures var c := Step(Step(Step(s, SetRegistry(tenant, NotFound)), Ask(id)), Store(id));
            var p := s.pending[id];
            && c.now == s.now && !Verdict(Registered(c.registry, tenant)) && tenant in c.cache
            && (c.cache[tenant].admits ==>
                  p.Answered? && Verdict(p.answer) && c.cache[tenant].deadline == p.readAt + ADMIT_TTL)
  {
    hide ReasonFor, Probed, Stored;
    var p := s.pending[id];
    var a := Step(s, SetRegistry(tenant, NotFound));
    assert a.pending == s.pending && Registered(a.registry, tenant) == NotFound;
    var b := Step(a, Ask(id));
    var answer := if p.Missed? then NotFound else p.answer;
    assert b.now == s.now && b.registry == a.registry && b.pending[id] == Answered(tenant, p.readAt, answer);
    var c := Step(b, Store(id));
    assert c.now == s.now && c.registry == a.registry && c.cache == Stored(b.cache, tenant, p.readAt, answer);
    StoredEntry(b.cache, tenant, p.readAt, answer);
  }

  /** A call under way that is not harmless can be made to spoil the admission: in time, and
      without any further call. */
  lemma Spoils(s: State, tenant: string, until: real, id: CallId) returns (es: seq<Event>)
    requires s.now < until && id in s.pending && s.pending[id].tenant == tenant && s.pending[id].readAt <= s.now
    requires !Harmless(s.pending[id], until)
    ensures forall e :: e in es ==> !e.Begin?
    ensures RunFrom(s, es).now < until && Cold(RunFrom(s, es), tenant)
  {
    hide ReasonFor, RunFrom, Probed, Asked, Stores, SetRegistryTo, Registered, Verdict;
    var p := s.pending[id];
    var last := p.readAt + ADMIT_TTL;
    var wait := if p.Answered? && Verdict(p.answer) && s.now < last then last - s.now else 0.0;
    es := [SetRegistry(tenant, NotFound), Ask(id), Store(id), Tick(wait)];
    FourSteps(s, es[0], es[1], es[2], es[3]);
    Spoilt(s, tenant, id);
  }

  lemma StoredEntry(cache: Cache, tenant: string, now: real, a: Answer)
    ensures var t := Stored(cache, tenant, now, a);
            tenant in t && t[tenant].admits == Verdict(a) && t[tenant].deadline == now + Ttl(Verdict(a))
  {
  }

  lemma ColdRefuses(s: State, tenant: string, id: CallId)
    requires id !in s.pending && id !in s.done && Cold(s, tenant)
    ensures var t := RunFrom(s, [Begin(id, tenant), Probe(id), Ask(id), Store(id)]);
            t.now == s.now && id in t.done && t.done[id].tenant == tenant && !t.done[id].reply.admits
  {
    hide RunFrom, ReasonFor;
    GateAlone(s, id, tenant);
  }

  lemma {:induction false} Above(ids: set<nat>) returns (n: nat)
    ensures forall x :: x in ids ==> x < n
    decreases ids
  {
    n := 0;
    if ids != {} {
      var x :| x in ids;
      n := Above(ids - {x});
      if n <= x { n := x + 1; }
      assert forall y :: y in ids ==> y == x || y in ids - {x};
    }
  }

  /** Every call for the tenant that finishes on the way is admitted, if the clock is still below
      `until` at the end. */
  ghost predicate Covered(s: State, es: seq<Event>, tenant: string, until: real, id: CallId) {
    var t := RunFrom(s, es);
    t.now < until && id !in s.done && id in t.done && t.done[id].tenant == tenant ==> t.done[id].reply.admits
  }

  /** An admission in the cache covers whatever happens before `until` exactly if every call for
      the tenant under way has not looked yet, or brings an admission lasting as long. */
  lemma CoverIff(s: State, tenant: string, until: real)
    requires Inv(s) && s.now < until
    requires tenant != "" && tenant in s.cache && s.cache[tenant].admits && until <= s.cache[tenant].deadline
    ensures (forall es, id :: Covered(s, es, tenant, until, id))
            <==> forall id :: id in s.pending && s.pending[id].tenant == tenant ==> Harmless(s.pending[id], until)
  {
    hide Inv, RunFrom, Harmless;
    if forall id :: id in s.pending && s.pending[id].tenant == tenant ==> Harmless(s.pending[id], until) {
      forall es, id ensures Covered(s, es, tenant, until, id) {
        var t := RunFrom(s, es);
        if t.now < until && id !in s.done && id in t.done && t.done[id].tenant == tenant {
          QuietAdmits(s, es, tenant, until, id);
        }
      }
    } else {
      var bad :| bad in s.pending && s.pending[bad].tenant == tenant && !Harmless(s.pending[bad], until);
      ReadInThePast(s, bad);
      var es, id := Uncovered(s, tenant, until, bad);
      assert !Covered(s, es, tenant, until, id);
    }
  }

  lemma ReadInThePast(s: State, id: CallId)
    requires Inv(s) && id in s.pending
    ensures s.pending[id].readAt <= s.now
  {
    hide Backed, CacheOk, DonesOk, LookupsOk;
  }

  lemma Uncovered(s: State, tenant: string, until: real, bad: CallId) returns (es: seq<Event>, id: CallId)
    requires s.now < until && bad in s.pending && s.pending[bad].tenant == tenant && s.pending[bad].readAt <= s.now
    requires !Harmless(s.pending[bad], until)
    ensures !Covered(s, es, tenant, until, id)
  {
    hide RunFrom, Harmless, Cold, Step;
    var spoil := Spoils(s, tenant, until, bad);
    var t := RunFrom(s, spoil);
    id := Above(t.pending.Keys + t.done.Keys + s.done.Keys);
    ColdRefuses(t, tenant, id);
    var call := [Begin(id, tenant), Probe(id), Ask(id), Store(id)];
    es := spoil + call;
    RunFromAppend(s, spoil, call);
  }

  lemma FourSteps(s: State, a: Event, b: Event, c: Event, d: Event)
    ensures RunFrom(s, [a, b, c, d]) == Step(Step(Step(Step(s, a), b), c), d)
  {
    hide Step;
    var es := [a, b, c, d];
    assert es[..3] == [a, b, c] && [a, b, c][..2] == [a, b] && [a, b][..1] == [a] && [a][..0] == [];
    assert RunFrom(s, [a]) == Step(s, a);
    assert RunFrom(s, [a, b]) == Step(Step(s, a), b);
    assert RunFrom(s, [a, b, c]) == Step(Step(Step(s, a), b), c);
  }

  /** Call 2 is refused at the very moment, by the clock, at which call 1 was admitted. */
  ghost predicate AdmittedThenRefused(s: State, t: string) {
    && s.now == 0.0
    && 1 in s.done && s.done[1] == Done(t, 0.0, Reply(true, NoReason))
    && 2 in s.done && s.done[2] == Done(t, 0.0, Reply(false, Undetermined))
  }

  /** Without the quiet, an admission covers nothing. Call 0 misses the cache and finds no such
      tenant; the tenant goes live; call 1 is admitted, good until 60; call 0 stores its refusal
      over the admission; and call 2 is refused. */
  lemma InterleavingBreaksCover(t: string)
    requires t != ""
    ensures exists es :: AdmittedThenRefused(RunFrom(Init(true), es), t)
  {
    hide Step, RunFrom;
    var a := [Begin(0, t), Probe(0), Ask(0), SetRegistry(t, Found(Live))];
    var b := [Begin(1, t), Probe(1), Ask(1), Store(1)];
    var c := [Store(0), Begin(2, t), Probe(2), Tick(0.0)];
    FourSteps(Init(true), a[0], a[1], a[2], a[3]);
    var s1 := RunFrom(Init(true), a);
    FourSteps(s1, b[0], b[1], b[2], b[3]);
    var s2 := RunFrom(s1, b);
    FourSteps(s2, c[0], c[1], c[2], c[3]);
    LateRefusal(t, s1);
    FreshAdmission(t, s1, s2);
    OverwrittenAdmission(t, s2, RunFrom(s2, c));
    RunFromAppend(Init(true), a, b);
    RunFromAppend(Init(true), a + b, c);
  }

  lemma LateRefusal(t: string, s: State)
    requires t != ""
    requires s == Step(Step(Step(Step(Init(true), Begin(0, t)), Probe(0)), Ask(0)), SetRegistry(t, Found(Live)))
    ensures s.now == 0.0 && s.configured && s.cache == map[] && s.done == map[]
    ensures s.pending == map[0 := Answered(t, 0.0, NotFound)] && s.registry == map[t := Found(Live)]
  {
  }

  lemma FreshAdmission(t: string, s: State, after: State)
    requires t != "" && s.now == 0.0 && s.configured && s.cache == map[] && s.done == map[]
    requires s.pending == map[0 := Answered(t, 0.0, NotFound)] && s.registry == map[t := Found(Live)]
    requires after == Step(Step(Step(Step(s, Begin(1, t)), Probe(1)), Ask(1)), Store(1))
    ensures after.now == 0.0 && after.configured && after.cache == map[t := Entry(60.0, true, NoReason)]
    ensures after.pending == map[0 := Answered(t, 0.0, NotFound)]
    ensures after.done == map[1 := Done(t, 0.0, Reply(true, NoReason))]
  {
  }

  lemma StoreOverwrites(t: string, s: State)
    requires t != "" && s.now == 0.0 && s.configured && s.cache == map[t := Entry(60.0, true, NoReason)]
    requires s.pending == map[0 := Answered(t, 0.0, NotFound)]
    requires s.done == map[1 := Done(t, 0.0, Reply(true, NoReason))]
    ensures var u := Step(s, Store(0));
            && u.now == 0.0 && u.configured && u.cache == map[t := Entry(10.0, false, Undetermined)]
            && u.pending == map[]
            && 1 in u.done && u.done[1] == Done(t, 0.0, Reply(true, NoReason)) && 2 !in u.done
  {
  }

  lemma OverwrittenAdmission(t: string, s: State, after: State)
    requires t != "" && s.now == 0.0 && s.configured && s.cache == map[t := Entry(60.0, true, NoReason)]
    requires s.pending == map[0 := Answered(t, 0.0, NotFound)]
    requires s.done == map[1 := Done(t, 0.0, Reply(true, NoReason))]
    requires after == Step(Step(Step(Step(s, Store(0)), Begin(2, t)), Probe(2)), Tick(0.0))
    ensures AdmittedThenRefused(after, t)
  {
    StoreOverwrites(t, s);
    hide Stores, Asked;
  }
}
