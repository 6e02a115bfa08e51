/** One-time codes for outside share links: the challenge, the weighted attempt budget, the
    verification that mints a recipient token, and the check of such a token. */
module ShareOtp {
  import opened Text
  import opened Tokens

  datatype Settings = Settings(
    ttl: int,                  // seconds a code lives
    maxAttempts: int,
    attemptWindow: int,        // seconds
    sendPerWindow: int,
    sendWindow: int,           // seconds
    sendPerLinkDay: int,
    minSecondsAfterSend: int,
    minSubmitIntervalMs: int,
    timingWeight: int,
    recipientTtl: int)         // seconds a recipient token lives
  {
    /** Lifetimes and windows as Redis accepts them. */
    predicate Usable() {
      ttl > 0 && attemptWindow > 0 && sendWindow > 0 && recipientTtl > 0
    }

    /** The attempt limit is on and every attempt costs something. */
    predicate Limiting() {
      Usable() && maxAttempts > 0 && timingWeight >= 1
    }
  }

  function NormEmail(email: string): string {
    Lower(Strip(email))
  }

  function Uid(link: string, email: string): string {
    link + ['|'] + NormEmail(email)
  }

  datatype ChallengeResult = Sent | SendFailed | RateLimited(retryAfter: int)
  datatype Flag = TooSoonAfterSend | SubmitInterval
  datatype VerifyResult =
    | Locked(timing: Option<Flag>)
    | WrongCode(timing: Option<Flag>)
    | Verified(token: string, timing: Option<Flag>)

  // ---------------------------------------------------------------- the requests as functions

  /** The two mail-flood limits: per address and window, and per link and day. The result is
      how long to wait, if one of them refuses. */
  function SendAllowed(ks: Keyspace, cfg: Settings, link: string, uid: string): (Keyspace, Option<int>) {
    var k1 := RateBumped(ks, ShareSend(uid), cfg.sendPerWindow, cfg.sendWindow);
    if !RateAllows(ks, ShareSend(uid), cfg.sendPerWindow, cfg.sendWindow) then (k1, Some(cfg.sendWindow))
    else (RateBumped(k1, ShareSendLink(link), cfg.sendPerLinkDay, 86400),
          if RateAllows(k1, ShareSendLink(link), cfg.sendPerLinkDay, 86400) then None else Some(86400))
  }

  function Challenged(ks: Keyspace, cfg: Settings, link: string, email: string, code: string, delivered: bool)
    : (Keyspace, ChallengeResult)
  {
    var uid := Uid(link, email);
    var (k, wait) := SendAllowed(ks, cfg, link, uid);
    if wait.Some? then (k, RateLimited(wait.value))
    else (MarkerSet(CodeIssued(k, Kind.ShareOtp, uid, code, cfg.ttl), ShareSentAt(uid), ks.now / 1000, cfg.ttl),
          if delivered then Sent else SendFailed)
  }

  /** Whether a submission is faster than a person can be: too soon after the mail, or too
      soon after the attempt before it. */
  function Timing(ks: Keyspace, cfg: Settings, uid: string): Option<Flag> {
    var sent, last := Marker(ks, ShareSentAt(uid)), Marker(ks, ShareLastAttempt(uid));
    if sent.Some? && ks.now / 1000 - sent.value < cfg.minSecondsAfterSend then Some(TooSoonAfterSend)
    else if last.Some? && ks.now - last.value < cfg.minSubmitIntervalMs then Some(SubmitInterval)
    else None
  }

  function Weight(cfg: Settings, timing: Option<Flag>): int {
    if timing.Some? then cfg.timingWeight else 1
  }

  /** `n` calls of the limiter; the last one decides. */
  function Charge(ks: Keyspace, bucket: Name, limit: int, window: int, n: int): (Keyspace, bool) {
    if n <= 0 then (ks, true)
    else
      var before := Charge(ks, bucket, limit, window, n - 1).0;
      (RateBumped(before, bucket, limit, window), RateAllows(before, bucket, limit, window))
  }

  function Verify(ks: Keyspace, cfg: Settings, link: string, email: string, code: string, random: string)
    : (Keyspace, VerifyResult)
  {
    var uid := Uid(link, email);
    var timing := Timing(ks, cfg, uid);
    var k1 := MarkerSet(ks, ShareLastAttempt(uid), ks.now, cfg.attemptWindow);
    var (k2, allowed) := Charge(k1, ShareAttempt(uid), cfg.maxAttempts, cfg.attemptWindow, Weight(cfg, timing));
    if !allowed then (k2, Locked(timing))
    else if CodeMatches(k2, Kind.ShareOtp, uid, code) then
      (Issued(CodeConsumed(k2, Kind.ShareOtp, uid, code), ShareRecipient, uid, cfg.recipientTtl, random),
       Verified(random, timing))
    else (k2, WrongCode(timing))
  }

  predicate TokenAccepted(ks: Keyspace, link: string, email: string, token: string) {
    Peek(ks, ShareRecipient, token) == Some(Uid(link, email))
  }

  class ShareOtpDoor {
    const tokens: TokenStore
    const cfg: Settings

    constructor (tokens: TokenStore, cfg: Settings)
      ensures this.tokens == tokens && this.cfg == cfg
    {
      this.tokens := tokens;
      this.cfg := cfg;
    }

    /** `code` is the random code and `delivered` says whether the mail went out. */
    method EmailChallenge(link: string, email: string, code: string, delivered: bool) returns (r: ChallengeResult)
      requires cfg.Usable()
      modifies tokens
      ensures tokens.enabled ==> (tokens.redis, r) == Challenged(old(tokens.redis), cfg, link, email, code, delivered)
      ensures !tokens.enabled ==> tokens.redis == old(tokens.redis) && r == if delivered then Sent else SendFailed
    {
      var uid := Uid(link, email);
      var ok := tokens.RateOk(ShareSend(uid), cfg.sendPerWindow, cfg.sendWindow);
      if !ok { return RateLimited(cfg.sendWindow); }
      ok := tokens.RateOk(ShareSendLink(link), cfg.sendPerLinkDay, 86400);
      if !ok { return RateLimited(86400); }
      tokens.IssueCode(Kind.ShareOtp, uid, code, cfg.ttl);
      tokens.SetMarker(ShareSentAt(uid), tokens.redis.now / 1000, cfg.ttl);
      r := if delivered then Sent else SendFailed;
    }

    method EmailVerify(link: string, email: string, code: string, random: string) returns (r: VerifyResult)
      requires cfg.Usable()
      modifies tokens
      ensures tokens.enabled ==> (tokens.redis, r) == Verify(old(tokens.redis), cfg, link, email, code, random)
      ensures !tokens.enabled ==> tokens.redis == old(tokens.redis) && r == WrongCode(None)
    {
      var uid := Uid(link, email);
      var now := tokens.redis.now;
      var timing: Option<Flag> := None;
      var sent := tokens.GetMarker(ShareSentAt(uid));
      if sent.Some? {
        if now / 1000 - sent.value < cfg.minSecondsAfterSend { timing := Some(TooSoonAfterSend); }
      }
      var last := tokens.GetMarker(ShareLastAttempt(uid));
      if last.Some? && timing.None? {
        if now - last.value < cfg.minSubmitIntervalMs { timing := Some(SubmitInterval); }
      }
      tokens.SetMarker(ShareLastAttempt(uid), now, cfg.attemptWindow);

      var weight := if timing.Some? then cfg.timingWeight else 1;
      var allowed := true;
      var i := 0;
      ghost var marked := tokens.redis;
      while i < weight
        invariant 0 <= i && (i <= weight || i == 0)
        invariant tokens.enabled ==>
          (tokens.redis, allowed) == Charge(marked, ShareAttempt(uid), cfg.maxAttempts, cfg.attemptWindow, i)
        invariant !tokens.enabled ==> tokens.redis == marked && allowed
      {
        allowed := tokens.RateOk(ShareAttempt(uid), cfg.maxAttempts, cfg.attemptWindow);
        i := i + 1;
      }
      if !allowed { return Locked(timing); }
      var ok := tokens.ConsumeCode(Kind.ShareOtp, uid, code);
      if ok {
        var token := tokens.Issue(ShareRecipient, uid, cfg.recipientTtl, random);
        return Verified(token, timing);
      }
      return WrongCode(timing);
    }

    method TokenCheck(link: string, email: string, token: string) returns (ok: bool)
      ensures ok == (tokens.enabled && TokenAccepted(tokens.redis, link, email, token))
    {
      var holder := tokens.PeekToken(ShareRecipient, token);
      assert Uid(link, email)[|link|] == '|';
      ok := holder.Some? && holder.value != "" && holder.value == Uid(link, email);
    }
  }

  // ---------------------------------------------------------------- whole runs

  datatype Event =
    | DoChallenge(link: string, email: string, code: string, delivered: bool)
    | DoVerify(link: string, email: string, code: string, random: string)
    | Wait(ms: nat)

  /** What happened, and when: a code was stored and mailed, an attempt was charged to a counter
      life (named by the life's deadline) and answered with a flag or none, a recipient token was
      minted. */
  datatype Entry =
    | CodeStored(uid: string, link: string, code: string, at: int, deadline: int)
    | Attempt(uid: string, life: int, weight: int, compared: bool, at: int, timing: Option<Flag>)
    | Minted(uid: string, link: string, email: string, code: string, token: string, at: int)

  datatype State = State(ks: Keyspace, used: set<string>, trace: seq<Entry>)

  function Init(): State {
    State(EmptyKeyspace, {""}, [])
  }

  function LifeOf(ks: Keyspace, uid: string): int {
    if ShareAttempt(uid) in ks.counters then ks.counters[ShareAttempt(uid)].deadline else 0
  }

  function StoredEntry(ks: Keyspace, cfg: Settings, link: string, email: string, code: string): Entry {
    CodeStored(Uid(link, email), link, code, ks.now, ks.now + 1000 * cfg.ttl)
  }

  /** The entries a verification appends: the attempt, and the mint if there was one. */
  function VerifyEntries(ks: Keyspace, cfg: Settings, link: string, email: string, code: string,
                         random: string): (Entry, Entry) {
    var uid := Uid(link, email);
    var (k, r) := Verify(ks, cfg, link, email, code, random);
    (Attempt(uid, LifeOf(k, uid), Weight(cfg, r.timing), !r.Locked?, ks.now, r.timing),
     Minted(uid, link, email, code, random, ks.now))
  }

  /** One request. Random tokens never repeat: an event that would repeat one is skipped. */
  function Step(s: State, cfg: Settings, e: Event): State {
    match e
    case DoChallenge(link, email, code, delivered) =>
      var (ks, r) := Challenged(s.ks, cfg, link, email, code, delivered);
      s.(ks := ks, trace := if r.RateLimited? then s.trace
                            else s.trace + [StoredEntry(s.ks, cfg, link, email, code)])
    case DoVerify(link, email, code, random) =>
      if random in s.used then s
      else
        var r := Verify(s.ks, cfg, link, email, code, random).1;
        var (attempt, mint) := VerifyEntries(s.ks, cfg, link, email, code, random);
        State(Verify(s.ks, cfg, link, email, code, random).0, s.used + {random},
              s.trace + [attempt] + if r.Verified? then [mint] else [])
    case Wait(ms) => s.(ks := s.ks.(now := s.ks.now + ms))
  }

  function Run(cfg: Settings, es: seq<Event>): State {
    if es == [] then Init() else Step(Run(cfg, es[..|es| - 1]), cfg, es[|es| - 1])
  }

  // ---------------------------------------------------------------- the attempt budget

  /** The weights of the attempts that reached the code comparison in one counter life. */
  function Spent(trace: seq<Entry>, uid: string, life: int): int {
    if trace == [] then 0
    else
      var e := trace[|trace| - 1];
      Spent(trace[..|trace| - 1], uid, life)
      + if e.Attempt? && e.uid == uid && e.life == life && e.compared then e.weight else 0
  }

  lemma SpentAdd(trace: seq<Entry>, e: Entry, uid: string, life: int)
    ensures Spent(trace + [e], uid, life) ==
      Spent(trace, uid, life) + if e.Attempt? && e.uid == uid && e.life == life && e.compared then e.weight else 0
  {
    assert (trace + [e])[..|trace|] == trace;
  }

  /** Charging `n` times at one moment: the counter's life goes on with `n` more, or a new
      life opens with `n`; the verdict is whether the count is within the limit. */
  lemma {:induction false} ChargeCounts(ks: Keyspace, bucket: Name, limit: int, window: int, n: int)
    requires limit > 0 && window > 0 && n >= 1
    ensures var c := CounterAt(ks, bucket);
            var after: Slot<nat> := if c.Some? && ks.now < c.value.deadline
                                    then Slot(c.value.value + n, c.value.deadline)
                                    else Slot(n, ks.now + Ms(window));
            Charge(ks, bucket, limit, window, n) ==
              (ks.(counters := ks.counters[bucket := after]), after.value <= limit)
  {
    var before := Charge(ks, bucket, limit, window, n - 1).0;
    if n > 1 {
      ChargeCounts(ks, bucket, limit, window, n - 1);
    } else {
      assert before == ks;
    }
    var next := Bump(CounterAt(before, bucket), ks.now, Ms(window));
    assert before.counters[bucket := next] == ks.counters[bucket := next];
  }

  /** The budget of one address, for one life of its counter: it is never overspent, what is
      spent in the current life is covered by the counter, and a life that has not begun has
      not been charged. */
  ghost predicate Budget(s: State, cfg: Settings, uid: string, life: int) {
    var c := CounterAt(s.ks, ShareAttempt(uid));
    && Spent(s.trace, uid, life) <= cfg.maxAttempts
    && (c.None? || c.value.deadline < life ==> Spent(s.trace, uid, life) == 0)
    && (c.Some? && c.value.deadline == life ==> Spent(s.trace, uid, life) <= c.value.value)
  }

  lemma BumpFrame(ks: Keyspace, bucket: Name, limit: int, window: int)
    ensures var k := RateBumped(ks, bucket, limit, window);
            && k.now == ks.now && k.tokens == ks.tokens && k.codes == ks.codes && k.markers == ks.markers
            && forall b :: b != bucket ==> CounterAt(k, b) == CounterAt(ks, b)
  {
    hide Bump;
  }

  lemma SendFrame(ks: Keyspace, cfg: Settings, link: string, uid: string)
    ensures var k := SendAllowed(ks, cfg, link, uid).0;
            && k.now == ks.now && k.tokens == ks.tokens && k.codes == ks.codes && k.markers == ks.markers
            && forall v :: CounterAt(k, ShareAttempt(v)) == CounterAt(ks, ShareAttempt(v))
  {
    hide RateBumped, RateAllows, CounterAt;
    BumpFrame(ks, ShareSend(uid), cfg.sendPerWindow, cfg.sendWindow);
    BumpFrame(RateBumped(ks, ShareSend(uid), cfg.sendPerWindow, cfg.sendWindow), ShareSendLink(link),
              cfg.sendPerLinkDay, 86400);
  }

  /** What a challenge does to the store: nothing to tokens or attempt budgets, and a new code
      exactly when it is not rate limited. */
  lemma ChallengeEffect(ks: Keyspace, cfg: Settings, link: string, email: string, code: string, delivered: bool)
    ensures var (k, r) := Challenged(ks, cfg, link, email, code, delivered);
            && k.now == ks.now && k.tokens == ks.tokens
            && k.codes == (if r.RateLimited? then ks.codes
                           else ks.codes[CodeKey(Kind.ShareOtp, Uid(link, email)) := Slot(code, ks.now + Ms(cfg.ttl))])
            && k.markers == (if r.RateLimited? then ks.markers
                             else MarkerSet(ks, ShareSentAt(Uid(link, email)), ks.now / 1000, cfg.ttl).markers)
            && forall v :: CounterAt(k, ShareAttempt(v)) == CounterAt(ks, ShareAttempt(v))
  {
    hide SendAllowed, Uid;
    SendFrame(ks, cfg, link, Uid(link, email));
  }

  /** What a verification does to the attempt counters and when it is locked out. */
  lemma VerifyCharges(ks: Keyspace, cfg: Settings, link: string, email: string, code: string, random: string, w: int)
    requires cfg.Limiting() && w == Weight(cfg, Timing(ks, cfg, Uid(link, email)))
    ensures var bucket := ShareAttempt(Uid(link, email));
            var c := CounterAt(ks, bucket);
            var after: Slot<nat> := if c.Some? && ks.now < c.value.deadline
                                    then Slot(c.value.value + w, c.value.deadline)
                                    else Slot(w, ks.now + 1000 * cfg.attemptWindow);
            && Verify(ks, cfg, link, email, code, random).1.timing == Timing(ks, cfg, Uid(link, email))
            && Verify(ks, cfg, link, email, code, random).0.counters == ks.counters[bucket := after]
            && (Verify(ks, cfg, link, email, code, random).1.Locked? <==> after.value > cfg.maxAttempts)
  {
    hide Uid, Timing, Charge;
    var uid := Uid(link, email);
    var k1 := MarkerSet(ks, ShareLastAttempt(uid), ks.now, cfg.attemptWindow);
    ChargeCounts(k1, ShareAttempt(uid), cfg.maxAttempts, cfg.attemptWindow, w);
  }

  lemma VerifyKeepsBudget(s: State, cfg: Settings, e: Event, uid: string, life: int)
    requires cfg.Limiting() && e.DoVerify? && e.random !in s.used && Budget(s, cfg, uid, life)
    ensures Budget(Step(s, cfg, e), cfg, uid, life)
  {
    hide Step, Verify, Uid, Timing;
    var w := Weight(cfg, Timing(s.ks, cfg, Uid(e.link, e.email)));
    var (attempt, mint) := VerifyEntries(s.ks, cfg, e.link, e.email, e.code, e.random);
    VerifyStep(s, cfg, e);
    VerifyCharges(s.ks, cfg, e.link, e.email, e.code, e.random, w);
    SpentAdd(s.trace, attempt, uid, life);
    SpentAdd(s.trace + [attempt], mint, uid, life);
  }

  lemma StepKeepsBudget(s: State, cfg: Settings, e: Event, uid: string, life: int)
    requires cfg.Limiting() && Budget(s, cfg, uid, life)
    ensures Budget(Step(s, cfg, e), cfg, uid, life)
  {
    hide Challenged, Verify, Uid;
    match e
    case DoChallenge(link, email, code, delivered) =>
      ChallengeEffect(s.ks, cfg, link, email, code, delivered);
      SpentAdd(s.trace, StoredEntry(s.ks, cfg, link, email, code), uid, life);
    case DoVerify(link, email, code, random) =>
      if random !in s.used { VerifyKeepsBudget(s, cfg, e, uid, life); }
    case Wait(ms) =>
  }

  lemma {:induction false} RunKeepsBudget(cfg: Settings, es: seq<Event>, uid: string, life: int)
    requires cfg.Limiting()
    ensures Budget(Run(cfg, es), cfg, uid, life)
  {
    hide Step;
    if es != [] {
      RunKeepsBudget(cfg, es[..|es| - 1], uid, life);
      StepKeepsBudget(Run(cfg, es[..|es| - 1]), cfg, es[|es| - 1], uid, life);
    }
  }

  /** For one (link, address) and one life of its counter, the attempts that ever get as far
      as the code comparison weigh at most `maxAttempts` together, however many fresh codes
      are requested in between. */
  lemma BudgetHolds(cfg: Settings, es: seq<Event>, link: string, email: string, life: int)
    requires cfg.Limiting()
    ensures Spent(Run(cfg, es).trace, Uid(link, email), life) <= cfg.maxAttempts
  {
    hide Run, Uid;
    RunKeepsBudget(cfg, es, Uid(link, email), life);
  }

  // ---------------------------------------------------------------- codes are one-time

  /** The code an address may still present, told from the trace: the newest one stored for
      it, unless a token has been minted since. */
  function Pending(trace: seq<Entry>, uid: string): Option<(string, int)> {
    if trace == [] then None
    else
      var e := trace[|trace| - 1];
      if e.CodeStored? && e.uid == uid then Some((e.code, e.deadline))
      else if e.Minted? && e.uid == uid then None
      else Pending(trace[..|trace| - 1], uid)
  }

  lemma PendingAdd(trace: seq<Entry>, e: Entry, uid: string)
    ensures Pending(trace + [e], uid) ==
      if e.CodeStored? && e.uid == uid then Some((e.code, e.deadline))
      else if e.Minted? && e.uid == uid then None
      else Pending(trace, uid)
  {
    assert (trace + [e])[..|trace|] == trace;
  }

  function StoredCode(ks: Keyspace, uid: string): Option<(string, int)> {
    var key := CodeKey(Kind.ShareOtp, uid);
    if key in ks.codes then Some((ks.codes[key].value, ks.codes[key].deadline)) else None
  }

  /** Charging touches only the counters. */
  lemma {:induction false} ChargeFrame(ks: Keyspace, bucket: Name, limit: int, window: int, n: int)
    ensures var k := Charge(ks, bucket, limit, window, n).0;
            && k.now == ks.now && k.codes == ks.codes && k.tokens == ks.tokens && k.index == ks.index
            && k.markers == ks.markers
    decreases if n > 0 then n else 0
  {
    if n > 0 { ChargeFrame(ks, bucket, limit, window, n - 1); }
  }

  lemma VerifyCodes(ks: Keyspace, cfg: Settings, link: string, email: string, code: string, random: string)
    ensures var (k, r) := Verify(ks, cfg, link, email, code, random);
            var uid := Uid(link, email);
            && k.now == ks.now
            && (r.Verified? ==> CodeMatches(ks, Kind.ShareOtp, uid, code))
            && (!r.Verified? && !r.Locked? ==> !CodeMatches(ks, Kind.ShareOtp, uid, code))
            && k.codes == (if r.Verified? then ks.codes - {CodeKey(Kind.ShareOtp, uid)} else ks.codes)
            && k.tokens == (if r.Verified?
                            then ks.tokens[TokenKey(ShareRecipient, random) := Slot(uid, ks.now + Ms(cfg.recipientTtl))]
                            else ks.tokens)
            && k.markers == ks.markers[ShareLastAttempt(uid) := Slot(ks.now, ks.now + Ms(cfg.attemptWindow))]
            && r.timing == Timing(ks, cfg, uid)
  {
    hide Uid, Timing, Charge;
    var uid := Uid(link, email);
    var k1 := MarkerSet(ks, ShareLastAttempt(uid), ks.now, cfg.attemptWindow);
    ChargeFrame(k1, ShareAttempt(uid), cfg.maxAttempts, cfg.attemptWindow, Weight(cfg, Timing(ks, cfg, uid)));
  }

  lemma VerifyStep(s: State, cfg: Settings, e: Event)
    requires e.DoVerify? && e.random !in s.used
    ensures var (k, r) := Verify(s.ks, cfg, e.link, e.email, e.code, e.random);
            var (attempt, mint) := VerifyEntries(s.ks, cfg, e.link, e.email, e.code, e.random);
            Step(s, cfg, e) == State(k, s.used + {e.random},
              if r.Verified? then s.trace + [attempt] + [mint] else s.trace + [attempt])
  {
    var (attempt, mint) := VerifyEntries(s.ks, cfg, e.link, e.email, e.code, e.random);
    assert s.trace + [attempt] + [] == s.trace + [attempt];
  }

  lemma VerifyKeepsPending(s: State, cfg: Settings, e: Event, uid: string)
    requires e.DoVerify? && e.random !in s.used
    requires Pending(s.trace, uid) == StoredCode(s.ks, uid)
    ensures Pending(Step(s, cfg, e).trace, uid) == StoredCode(Step(s, cfg, e).ks, uid)
  {
    hide Step, Verify, Uid, Timing;
    var (attempt, mint) := VerifyEntries(s.ks, cfg, e.link, e.email, e.code, e.random);
    VerifyStep(s, cfg, e);
    VerifyCodes(s.ks, cfg, e.link, e.email, e.code, e.random);
    PendingAdd(s.trace, attempt, uid);
    PendingAdd(s.trace + [attempt], mint, uid);
  }

  lemma StepPending(s: State, cfg: Settings, e: Event, uid: string)
    requires Pending(s.trace, uid) == StoredCode(s.ks, uid)
    ensures Pending(Step(s, cfg, e).trace, uid) == StoredCode(Step(s, cfg, e).ks, uid)
  {
    hide Challenged, Verify, Uid;
    match e
    case DoChallenge(link, email, code, delivered) =>
      ChallengeEffect(s.ks, cfg, link, email, code, delivered);
      PendingAdd(s.trace, StoredEntry(s.ks, cfg, link, email, code), uid);
    case DoVerify(link, email, code, random) =>
      if random !in s.used { VerifyKeepsPending(s, cfg, e, uid); }
    case Wait(ms) =>
  }

  /** In every reachable state the stored code is the one the trace says is outstanding. */
  lemma {:induction false} RunPending(cfg: Settings, es: seq<Event>, uid: string)
    ensures Pending(Run(cfg, es).trace, uid) == StoredCode(Run(cfg, es).ks, uid)
  {
    hide Step;
    if es != [] {
      RunPending(cfg, es[..|es| - 1], uid);
      StepPending(Run(cfg, es[..|es| - 1]), cfg, es[|es| - 1], uid);
    }
  }

  /** A submission is verified exactly when it is within the budget and presents, in time,
      the newest code sent to that address since its last success. */
  lemma VerifiedIff(cfg: Settings, es: seq<Event>, link: string, email: string, code: string, random: string)
    ensures var s := Run(cfg, es);
            var r := Verify(s.ks, cfg, link, email, code, random).1;
            var pending := Pending(s.trace, Uid(link, email));
            r.Verified? <==>
                  !r.Locked? && code != "" && pending.Some? && pending.value.0 == code && s.ks.now < pending.value.1
  {
    var s := Run(cfg, es);
    RunPending(cfg, es, Uid(link, email));
    VerifyCodes(s.ks, cfg, link, email, code, random);
  }

  function CountStored(trace: seq<Entry>, uid: string): nat {
    if trace == [] then 0
    else
      var last := trace[|trace| - 1];
      CountStored(trace[..|trace| - 1], uid) + if last.CodeStored? && last.uid == uid then 1 else 0
  }

  function CountMinted(trace: seq<Entry>, uid: string): nat {
    if trace == [] then 0
    else
      var last := trace[|trace| - 1];
      CountMinted(trace[..|trace| - 1], uid) + if last.Minted? && last.uid == uid then 1 else 0
  }

  lemma CountAdd(trace: seq<Entry>, e: Entry, uid: string)
    ensures CountStored(trace + [e], uid) == CountStored(trace, uid) + if e.CodeStored? && e.uid == uid then 1 else 0
    ensures CountMinted(trace + [e], uid) == CountMinted(trace, uid) + if e.Minted? && e.uid == uid then 1 else 0
  {
    assert (trace + [e])[..|trace|] == trace;
  }

  ghost predicate Covered(trace: seq<Entry>, uid: string) {
    CountMinted(trace, uid) + (if Pending(trace, uid).Some? then 1 else 0) <= CountStored(trace, uid)
  }

  lemma VerifyKeepsCovered(s: State, cfg: Settings, e: Event, uid: string)
    requires e.DoVerify? && e.random !in s.used
    requires Pending(s.trace, uid) == StoredCode(s.ks, uid) && Covered(s.trace, uid)
    ensures Covered(Step(s, cfg, e).trace, uid)
  {
    hide Step, Verify, Uid, Timing;
    var (attempt, mint) := VerifyEntries(s.ks, cfg, e.link, e.email, e.code, e.random);
    VerifyStep(s, cfg, e);
    VerifyCodes(s.ks, cfg, e.link, e.email, e.code, e.random);
    CountAdd(s.trace, attempt, uid);
    PendingAdd(s.trace, attempt, uid);
    CountAdd(s.trace + [attempt], mint, uid);
    PendingAdd(s.trace + [attempt], mint, uid);
  }

  lemma StepKeepsCovered(s: State, cfg: Settings, e: Event, uid: string)
    requires Pending(s.trace, uid) == StoredCode(s.ks, uid) && Covered(s.trace, uid)
    ensures Covered(Step(s, cfg, e).trace, uid)
  {
    hide Challenged, Verify, Uid;
    match e
    case DoChallenge(link, email, code, delivered) =>
      var stored := StoredEntry(s.ks, cfg, link, email, code);
      CountAdd(s.trace, stored, uid);
      PendingAdd(s.trace, stored, uid);
    case DoVerify(link, email, code, random) =>
      if random !in s.used { VerifyKeepsCovered(s, cfg, e, uid); }
    case Wait(ms) =>
  }

  /** No address ever receives more recipient tokens than codes were stored for it; one
      outstanding code is one token not yet minted. */
  lemma {:induction false} MintsCoveredByCodes(cfg: Settings, es: seq<Event>, uid: string)
    ensures Covered(Run(cfg, es).trace, uid)
  {
    hide Step;
    if es != [] {
      MintsCoveredByCodes(cfg, es[..|es| - 1], uid);
      RunPending(cfg, es[..|es| - 1], uid);
      StepKeepsCovered(Run(cfg, es[..|es| - 1]), cfg, es[|es| - 1], uid);
    } else {
      assert Run(cfg, es).trace == [];
    }
  }

  // ---------------------------------------------------------------- recipient tokens

  predicate MintOf(e: Entry, token: string, uid: string) {
    e.Minted? && e.token == token && e.uid == uid
  }

  /** The mint of a token is recorded, and it is still young enough. */
  ghost predicate LiveMint(s: State, cfg: Settings, token: string, uid: string) {
    exists i :: 0 <= i < |s.trace| && MintOf(s.trace[i], token, uid)
                && s.ks.now < s.trace[i].at + 1000 * cfg.recipientTtl
  }

  ghost predicate TokensAreMints(s: State, cfg: Settings) {
    && "" in s.used
    && (forall k :: k in s.ks.tokens ==> k.token in s.used)
    && (forall i :: 0 <= i < |s.trace| && s.trace[i].Minted? ==>
          && s.trace[i].token in s.used && s.trace[i].token != ""
          && s.trace[i].uid == Uid(s.trace[i].link, s.trace[i].email)
          && TokenKey(ShareRecipient, s.trace[i].token) in s.ks.tokens
          && s.ks.tokens[TokenKey(ShareRecipient, s.trace[i].token)] ==
                Slot(s.trace[i].uid, s.trace[i].at + Ms(cfg.recipientTtl)))
    && (forall k :: k in s.ks.tokens && k.kind == ShareRecipient ==>
          exists i :: 0 <= i < |s.trace| && MintOf(s.trace[i], k.token, s.ks.tokens[k].value))
  }

  lemma VerifyKeepsMints(s: State, cfg: Settings, e: Event)
    requires e.DoVerify? && e.random !in s.used && TokensAreMints(s, cfg)
    ensures TokensAreMints(Step(s, cfg, e), cfg)
  {
    hide Step, Verify, Uid;
    var t := Step(s, cfg, e);
    var (attempt, mint) := VerifyEntries(s.ks, cfg, e.link, e.email, e.code, e.random);
    VerifyStep(s, cfg, e);
    VerifyCodes(s.ks, cfg, e.link, e.email, e.code, e.random);
    assert forall i :: 0 <= i < |s.trace| ==> t.trace[i] == s.trace[i];
    forall k | k in t.ks.tokens && k.kind == ShareRecipient
      ensures exists i :: 0 <= i < |t.trace| && MintOf(t.trace[i], k.token, t.ks.tokens[k].value)
    {
      if k in s.ks.tokens && k.token != e.random {
        var i :| 0 <= i < |s.trace| && MintOf(s.trace[i], k.token, s.ks.tokens[k].value);
        assert MintOf(t.trace[i], k.token, t.ks.tokens[k].value);
      } else {
        assert MintOf(t.trace[|s.trace| + 1], k.token, t.ks.tokens[k].value);
      }
    }
  }

  lemma ChallengeKeepsMints(s: State, cfg: Settings, e: Event)
    requires e.DoChallenge? && TokensAreMints(s, cfg)
    ensures TokensAreMints(Step(s, cfg, e), cfg)
  {
    hide Challenged, Uid;
    var t := Step(s, cfg, e);
    ChallengeEffect(s.ks, cfg, e.link, e.email, e.code, e.delivered);
    assert forall i :: 0 <= i < |s.trace| ==> t.trace[i] == s.trace[i];
    forall k | k in t.ks.tokens && k.kind == ShareRecipient
      ensures exists i :: 0 <= i < |t.trace| && MintOf(t.trace[i], k.token, t.ks.tokens[k].value)
    {
      var i :| 0 <= i < |s.trace| && MintOf(s.trace[i], k.token, s.ks.tokens[k].value);
      assert MintOf(t.trace[i], k.token, t.ks.tokens[k].value);
    }
  }

  lemma {:induction false} RunKeepsMints(cfg: Settings, es: seq<Event>)
    ensures TokensAreMints(Run(cfg, es), cfg)
  {
    hide Challenged, Verify, Uid;
    if es != [] {
      var s, e := Run(cfg, es[..|es| - 1]), es[|es| - 1];
      RunKeepsMints(cfg, es[..|es| - 1]);
      match e
      case DoChallenge(_, _, _, _) => ChallengeKeepsMints(s, cfg, e);
      case DoVerify(_, _, _, random) => if random !in s.used { VerifyKeepsMints(s, cfg, e); }
      case Wait(ms) =>
    }
  }

  /** A recipient token is accepted for a link and an address exactly when a verification for
      that very key minted it less than its lifetime ago. */
  lemma AcceptedIffMinted(cfg: Settings, es: seq<Event>, link: string, email: string, token: string)
    ensures TokenAccepted(Run(cfg, es).ks, link, email, token) <==> LiveMint(Run(cfg, es), cfg, token, Uid(link, email))
  {
    RunKeepsMints(cfg, es);
    var s := Run(cfg, es);
    var key := TokenKey(ShareRecipient, token);
    if TokenAccepted(s.ks, link, email, token) {
      var i :| 0 <= i < |s.trace| && MintOf(s.trace[i], token, s.ks.tokens[key].value);
      assert MintOf(s.trace[i], token, Uid(link, email));
    }
  }

  /** Link identifiers without the separator make the pair readable from its key. */
  lemma BarSplits(a: string, x: string, b: string, y: string)
    requires '|' !in a && '|' !in b && a + ['|'] + x == b + ['|'] + y
    ensures a == b && x == y
  {
    var s := a + ['|'] + x;
    var t := b + ['|'] + y;
    assert s[|a|] == '|' && t[|b|] == '|';
    assert forall i :: 0 <= i < |a| ==> s[i] == a[i];
    assert forall i :: 0 <= i < |b| ==> t[i] == b[i];
    assert |a| == |b|;
    assert s[..|a|] == a && t[..|b|] == b;
    assert s[|a| + 1..] == x && t[|b| + 1..] == y;
  }

  /** Without the separator in the links, two pairs have the same key exactly if they are the same
      link and the same address, up to case and surrounding whitespace. */
  lemma SameKey(link: string, email: string, link': string, email': string)
    requires '|' !in link && '|' !in link'
    ensures Uid(link, email) == Uid(link', email')
            <==> link == link' && SameIgnoringCase(Strip(email), Strip(email'))
  {
    hide Strip, Lower;
    CaseFolds(Strip(email), Strip(email'));
    if Uid(link, email) == Uid(link', email') { BarSplits(link, NormEmail(email), link', NormEmail(email')); }
  }

  /** So where no link identifier contains the separator, a token is accepted exactly if it was
      minted for this link and this address, up to case and surrounding whitespace, less than its
      lifetime ago. */
  lemma AcceptedForItsOwner(cfg: Settings, es: seq<Event>, link: string, email: string, token: string)
    requires '|' !in link
    requires forall e :: e in es && e.DoVerify? ==> '|' !in e.link
    ensures var s := Run(cfg, es);
            TokenAccepted(s.ks, link, email, token)
            <==> exists i :: 0 <= i < |s.trace| && MintFor(s.trace[i], token, link, email)
                             && s.ks.now < s.trace[i].at + 1000 * cfg.recipientTtl
  {
    hide Run, TokenAccepted, Uid;
    AcceptedIffMinted(cfg, es, link, email, token);
    RunKeepsMints(cfg, es);
    MintLinksFromEvents(cfg, es);
    var s := Run(cfg, es);
    forall i | 0 <= i < |s.trace| && s.trace[i].Minted?
      ensures MintOf(s.trace[i], token, Uid(link, email)) <==> MintFor(s.trace[i], token, link, email)
    {
      SameKey(s.trace[i].link, s.trace[i].email, link, email);
    }
  }

  predicate MintFor(e: Entry, token: string, link: string, email: string) {
    e.Minted? && e.token == token && e.link == link && SameIgnoringCase(Strip(e.email), Strip(email))
  }

  lemma {:induction false} MintLinksFromEvents(cfg: Settings, es: seq<Event>)
    requires forall e :: e in es && e.DoVerify? ==> '|' !in e.link
    ensures forall i :: 0 <= i < |Run(cfg, es).trace| && Run(cfg, es).trace[i].Minted? ==>
            '|' !in Run(cfg, es).trace[i].link
  {
    hide Challenged, Verify, Uid;
    if es != [] {
      var rest, e := es[..|es| - 1], es[|es| - 1];
      assert es == rest + [e];
      MintLinksFromEvents(cfg, rest);
      if e.DoVerify? && e.random !in Run(cfg, rest).used { VerifyStep(Run(cfg, rest), cfg, e); }
    }
  }

  /** The condition matters: with the separator inside a link identifier, a token minted for
      one link and address has the key of another. */
  lemma BarsConfuse()
    ensures Uid("a|b", "c") == Uid("a", "b|c")
    ensures forall ks, token :: TokenAccepted(ks, "a|b", "c", token) <==> TokenAccepted(ks, "a", "b|c", token)
  {
    assert !IsSpace('b') && !IsSpace('c');
    StripFixed("c");
    StripFixed("b|c");
    assert Lower("c") == "c" && Lower("b|c") == "b|c";
  }
}
