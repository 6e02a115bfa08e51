/** Which tenant states admit a login, and the gate that asks the registry and remembers the
    answer for a while. Clock readings and the registry's answer to a lookup are parameters. */
module TenantGate {
  import opened Text

  /** The tenant lifecycle, as spelled on the wire; `Unknown` is any other spelling. */
  datatype TenantState =
    | Requested | AwaitingDns | Provisioning | Live | Suspended | Decommissioning | Decommissioned
    | Unknown(spelling: string)

  /** What the registry answers: a row with its state, no row, or no answer. */
  datatype Answer = Found(state: TenantState) | NotFound | Failed

  datatype Reason =
    | NoReason
    | Undetermined
    | TenantSuspended
    | StillProvisioning
    | NotYetProvisioned
    | BeingDecommissioned
    | HasBeenDecommissioned
    | NotRecognised

  const ADMIT_TTL: real := 60.0
  const REFUSE_TTL: real := 10.0

  predicate Admits(state: TenantState) {
    state.Live?
  }

  predicate Known(state: TenantState) {
    !state.Unknown?
  }

  function RefusalReason(state: TenantState, lookupSucceeded: bool): Reason {
    if !lookupSucceeded then Undetermined
    else if state.Suspended? then TenantSuspended
    else if state.Provisioning? then StillProvisioning
    else if state.Requested? || state.AwaitingDns? then NotYetProvisioned
    else if state.Decommissioning? then BeingDecommissioned
    else if state.Decommissioned? then HasBeenDecommissioned
    else if !Known(state) then NotRecognised
    else NoReason
  }

  function Verdict(a: Answer): bool {
    a.Found? && Known(a.state) && Admits(a.state)
  }

  function ReasonFor(a: Answer): Reason {
    if Verdict(a) then NoReason
    else if a.Found? then RefusalReason(a.state, true)
    else RefusalReason(Unknown(""), false)
  }

  /** Only a registry row that says live admits, the reason is empty exactly then, each other
      state has its own; and a lookup that did not succeed is never reported as a state of the
      tenant. */
  lemma ReasonsAreHonest(a: Answer)
    ensures Verdict(a) <==> a == Found(Live)
    ensures ReasonFor(a) == NoReason <==> Verdict(a)
    ensures ReasonFor(a) == Undetermined <==> !a.Found?
    ensures ReasonFor(a) == TenantSuspended <==> a == Found(Suspended)
    ensures ReasonFor(a) == StillProvisioning <==> a == Found(Provisioning)
    ensures ReasonFor(a) == NotYetProvisioned <==> a in {Found(Requested), Found(AwaitingDns)}
    ensures ReasonFor(a) == BeingDecommissioned <==> a == Found(Decommissioning)
    ensures ReasonFor(a) == HasBeenDecommissioned <==> a == Found(Decommissioned)
    ensures ReasonFor(a) == NotRecognised <==> a.Found? && a.state.Unknown?
  {
  }

  // ---------------------------------------------------------------- the cached gate

  datatype Entry = Entry(deadline: real, admits: bool, reason: Reason)

  type Cache = map<string, Entry>

  function Ttl(verdict: bool): real {
    if verdict then ADMIT_TTL else REFUSE_TTL
  }

  predicate Hit(cache: Cache, tenant: string, now: real) {
    tenant in cache && now < cache[tenant].deadline
  }

  function Stored(cache: Cache, tenant: string, now: real, a: Answer): Cache {
    cache[tenant := Entry(now + Ttl(Verdict(a)), Verdict(a), ReasonFor(a))]
  }

  datatype Reply = Reply(admits: bool, reason: Reason)

  const REFUSED := Reply(false, Undetermined)

  /** One call, start to end: the cache afterwards and the reply. */
  function GateCall(cache: Cache, configured: bool, tenant: string, now: real, a: Answer): (Cache, Reply) {
    if tenant == "" then (cache, REFUSED)
    else if Hit(cache, tenant, now) then (cache, Reply(cache[tenant].admits, cache[tenant].reason))
    else if !configured then (cache, REFUSED)
    else (Stored(cache, tenant, now, a), Reply(Verdict(a), ReasonFor(a)))
  }

  /** What a call comes to: without a tenant it is refused undetermined, and so it is where nothing
      is remembered and there is no registry to ask; what is remembered is repeated before its
      deadline; and otherwise the registry's answer decides, and is remembered. */
  lemma CallsMean(cache: Cache, configured: bool, tenant: string, now: real, a: Answer)
    ensures var (after, reply) := GateCall(cache, configured, tenant, now, a);
            var hit := tenant in cache && now < cache[tenant].deadline;
            && (tenant == "" || (!hit && !configured) ==> reply == Reply(false, Undetermined) && after == cache)
            && (tenant != "" && hit ==>
                  reply == Reply(cache[tenant].admits, cache[tenant].reason) && after == cache)
            && (tenant != "" && !hit && configured ==>
                  && reply == Reply(a == Found(Live), ReasonFor(a))
                  && tenant in after
                  && after[tenant] == Entry(now + if a == Found(Live) then 60.0 else 10.0, reply.admits, reply.reason)
                  && after - {tenant} == cache - {tenant})
  {
  }

  class TenantStateGate {
    var configured: bool
    var cache: Cache

    constructor ()
      ensures !configured && cache == map[]
    {
      configured := false;
      cache := map[];
    }

    method SetSource()
      modifies this
      ensures configured && cache == old(cache)
    {
      configured := true;
    }

    /** `answer` is what the registry answers if this call looks it up. */
    method AdmitsTenant(tenant: string, now: real, answer: Answer) returns (r: Reply)
      modifies this
      ensures configured == old(configured)
      ensures (cache, r) == GateCall(old(cache), configured, tenant, now, answer)
    {
      if tenant == "" { return REFUSED; }
      if tenant in cache {
        var hit := cache[tenant];
        if now < hit.deadline { return Reply(hit.admits, hit.reason); }
      }
      if !configured { return REFUSED; }
      var ok := answer.Found?;
      var verdict := ok && Known(answer.state) && Admits(answer.state);
      var reason := if verdict then NoReason
                    else if ok then RefusalReason(answer.state, true) else RefusalReason(Unknown(""), false);
      cache := cache[tenant := Entry(now + (if verdict then ADMIT_TTL else REFUSE_TTL), verdict, reason)];
      return Reply(verdict, reason);
    }
  }

  // ---------------------------------------------------------------- calls one at a time

  datatype Call = Call(tenant: string, at: real, answer: Answer)

  function AfterCalls(cache: Cache, configured: bool, calls: seq<Call>): Cache {
    if calls == [] then cache
    else
      var c := calls[|calls| - 1];
      GateCall(AfterCalls(cache, configured, calls[..|calls| - 1]), configured, c.tenant, c.at, c.answer).0
  }

  lemma {:induction false} EntryKept(cache: Cache, configured: bool, calls: seq<Call>, tenant: string)
    requires tenant in cache && forall c :: c in calls ==> c.at < cache[tenant].deadline
    ensures tenant in AfterCalls(cache, configured, calls)
    ensures AfterCalls(cache, configured, calls)[tenant] == cache[tenant]
  {
    if calls != [] {
      assert calls[|calls| - 1] in calls;
      EntryKept(cache, configured, calls[..|calls| - 1], tenant);
    }
  }

  /** With calls one at a time, an admission at `t1` decides every call before its deadline:
      whatever was asked in between, a second call at `t2` admits if `t2` is below the deadline,
      and otherwise exactly if the registry says so (given nothing was asked after it). */
  lemma AdmissionCovers(cache: Cache, configured: bool, tenant: string, t1: real, a1: Answer,
                        between: seq<Call>, t2: real, a2: Answer)
    requires GateCall(cache, configured, tenant, t1, a1).1.admits
    requires configured
    ensures var first := GateCall(cache, configured, tenant, t1, a1).0;
            && tenant in first && t1 < first[tenant].deadline
            && ((forall c :: c in between ==> c.at < first[tenant].deadline) ==>
                  (GateCall(AfterCalls(first, configured, between), configured, tenant, t2, a2).1.admits
                   <==> t2 < first[tenant].deadline || Verdict(a2)))
  {
    var first := GateCall(cache, configured, tenant, t1, a1).0;
    if forall c :: c in between ==> c.at < first[tenant].deadline {
      EntryKept(first, configured, between, tenant);
    }
  }
}
