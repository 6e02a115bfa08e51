/** The timing rule of share-link codes over whole runs, told from what happened alone: when the
    address was last sent a code, and when it was last tried. */
module ShareOtpTiming {
  import opened Text
  import opened Tokens
  import opened ShareOtp

  /** When the newest code of an address was stored, and when the address was last tried. */
  function LastStored(trace: seq<Entry>, uid: string): Option<int> {
    if trace == [] then None
    else
      var e := trace[|trace| - 1];
      if e.CodeStored? && e.uid == uid then Some(e.at) else LastStored(trace[..|trace| - 1], uid)
  }

  function LastTried(trace: seq<Entry>, uid: string): Option<int> {
    if trace == [] then None
    else
      var e := trace[|trace| - 1];
      if e.Attempt? && e.uid == uid then Some(e.at) else LastTried(trace[..|trace| - 1], uid)
  }

  lemma LastAdd(trace: seq<Entry>, e: Entry, uid: string)
    ensures LastStored(trace + [e], uid) == if e.CodeStored? && e.uid == uid then Some(e.at) else LastStored(trace, uid)
    ensures LastTried(trace + [e], uid) == if e.Attempt? && e.uid == uid then Some(e.at) else LastTried(trace, uid)
  {
    assert (trace + [e])[..|trace|] == trace;
  }

  /** A code was stored within its lifetime, and fewer whole seconds ago than anybody reads a mail in. */
  predicate TooEarly(cfg: Settings, sent: Option<int>, at: int) {
    sent.Some? && at < sent.value + 1000 * cfg.ttl && at / 1000 - sent.value / 1000 < cfg.minSecondsAfterSend
  }

  /** There was an attempt within the window, and fewer milliseconds ago than anybody types in. */
  predicate TooQuick(cfg: Settings, tried: Option<int>, at: int) {
    tried.Some? && at < tried.value + 1000 * cfg.attemptWindow && at - tried.value < cfg.minSubmitIntervalMs
  }

  /** How an attempt is to be flagged and weighed after what happened before it. */
  predicate RightlyTimed(cfg: Settings, before: seq<Entry>, uid: string, at: int, timing: Option<Flag>, weight: int) {
    var early := TooEarly(cfg, LastStored(before, uid), at);
    var quick := TooQuick(cfg, LastTried(before, uid), at);
    && (timing == Some(TooSoonAfterSend) <==> early)
    && (timing == Some(SubmitInterval) <==> quick && !early)
    && (timing == None <==> !early && !quick)
    && weight == if early || quick then cfg.timingWeight else 1
  }

  function SlotAt(ks: Keyspace, key: Name): Option<Slot<int>> {
    if key in ks.markers then Some(ks.markers[key]) else None
  }

  /** The markers hold what the trace says. */
  predicate MarkersTell(ks: Keyspace, cfg: Settings, trace: seq<Entry>, uid: string) {
    var sent, tried := LastStored(trace, uid), LastTried(trace, uid);
    && SlotAt(ks, ShareSentAt(uid))
       == (if sent.Some? then Some(Slot(sent.value / 1000, sent.value + 1000 * cfg.ttl)) else None)
    && SlotAt(ks, ShareLastAttempt(uid))
       == (if tried.Some? then Some(Slot(tried.value, tried.value + 1000 * cfg.attemptWindow)) else None)
  }

  lemma TimingTold(ks: Keyspace, cfg: Settings, trace: seq<Entry>, uid: string)
    requires MarkersTell(ks, cfg, trace, uid)
    ensures RightlyTimed(cfg, trace, uid, ks.now, Timing(ks, cfg, uid), Weight(cfg, Timing(ks, cfg, uid)))
  {
    hide LastStored, LastTried;
  }

  ghost predicate TraceTimed(cfg: Settings, trace: seq<Entry>) {
    forall i :: 0 <= i < |trace| && trace[i].Attempt? ==>
      RightlyTimed(cfg, trace[..i], trace[i].uid, trace[i].at, trace[i].timing, trace[i].weight)
  }

  lemma TraceTimedAdd(cfg: Settings, trace: seq<Entry>, e: Entry)
    requires TraceTimed(cfg, trace)
    requires e.Attempt? ==> RightlyTimed(cfg, trace, e.uid, e.at, e.timing, e.weight)
    ensures TraceTimed(cfg, trace + [e])
  {
    hide RightlyTimed;
    assert (trace + [e])[..|trace|] == trace;
    forall i | 0 <= i < |trace| ensures (trace + [e])[..i] == trace[..i] && (trace + [e])[i] == trace[i] {
    }
  }

  lemma ChallengeTimed(s: State, cfg: Settings, e: Event, uid: string)
    requires e.DoChallenge? && MarkersTell(s.ks, cfg, s.trace, uid) && TraceTimed(cfg, s.trace)
    ensures var t := Step(s, cfg, e); MarkersTell(t.ks, cfg, t.trace, uid) && TraceTimed(cfg, t.trace)
  {
    hide Challenged, Uid, LastStored, LastTried, RightlyTimed;
    ChallengeEffect(s.ks, cfg, e.link, e.email, e.code, e.delivered);
    var stored := StoredEntry(s.ks, cfg, e.link, e.email, e.code);
    LastAdd(s.trace, stored, uid);
    TraceTimedAdd(cfg, s.trace, stored);
  }

  lemma VerifyMarks(s: State, cfg: Settings, e: Event, uid: string)
    requires e.DoVerify? && e.random !in s.used && MarkersTell(s.ks, cfg, s.trace, uid)
    ensures var t := Step(s, cfg, e); MarkersTell(t.ks, cfg, t.trace, uid)
  {
    hide Step, Verify, Uid, LastStored, LastTried, Timing;
    var (attempt, mint) := VerifyEntries(s.ks, cfg, e.link, e.email, e.code, e.random);
    VerifyStep(s, cfg, e);
    VerifyCodes(s.ks, cfg, e.link, e.email, e.code, e.random);
    LastAdd(s.trace, attempt, uid);
    LastAdd(s.trace + [attempt], mint, uid);
  }

  lemma VerifyTimed(s: State, cfg: Settings, e: Event)
    requires e.DoVerify? && e.random !in s.used && TraceTimed(cfg, s.trace)
    requires MarkersTell(s.ks, cfg, s.trace, Uid(e.link, e.email))
    ensures TraceTimed(cfg, Step(s, cfg, e).trace)
  {
    hide Step, Verify, Uid, MarkersTell, RightlyTimed, TraceTimed, Timing;
    var (attempt, mint) := VerifyEntries(s.ks, cfg, e.link, e.email, e.code, e.random);
    VerifyStep(s, cfg, e);
    VerifyCodes(s.ks, cfg, e.link, e.email, e.code, e.random);
    TimingTold(s.ks, cfg, s.trace, Uid(e.link, e.email));
    TraceTimedAdd(cfg, s.trace, attempt);
    TraceTimedAdd(cfg, s.trace + [attempt], mint);
  }

  lemma {:induction false} RunTimed(cfg: Settings, es: seq<Event>, uid: string)
    ensures var s := Run(cfg, es); MarkersTell(s.ks, cfg, s.trace, uid) && TraceTimed(cfg, s.trace)
  {
    hide Challenged, Verify, Uid, TraceTimed;
    if es == [] {
      assert TraceTimed(cfg, []) by { NothingTimed(cfg); }
    } else {
      var s, e := Run(cfg, es[..|es| - 1]), es[|es| - 1];
      RunTimed(cfg, es[..|es| - 1], uid);
      match e
      case DoChallenge(_, _, _, _) => ChallengeTimed(s, cfg, e, uid);
      case DoVerify(link, email, _, random) =>
        if random !in s.used {
          RunTimed(cfg, es[..|es| - 1], Uid(link, email));
          VerifyMarks(s, cfg, e, uid);
          VerifyTimed(s, cfg, e);
        }
      case Wait(ms) =>
    }
  }

  lemma NothingTimed(cfg: Settings)
    ensures TraceTimed(cfg, [])
  {
  }

  /** Every attempt of a run was flagged and weighed for exactly these two reasons: its address's
      newest code had been stored too short a while before, or its last attempt had been made too
      short a while before; otherwise it weighed one. */
  lemma AttemptsAreRightlyTimed(cfg: Settings, es: seq<Event>, i: nat)
    requires i < |Run(cfg, es).trace| && Run(cfg, es).trace[i].Attempt?
    ensures var t := Run(cfg, es).trace;
            var sent, tried, at := LastStored(t[..i], t[i].uid), LastTried(t[..i], t[i].uid), t[i].at;
            var early := sent.Some? && at < sent.value + 1000 * cfg.ttl
                         && at / 1000 - sent.value / 1000 < cfg.minSecondsAfterSend;
            var quick := tried.Some? && at < tried.value + 1000 * cfg.attemptWindow
                         && at - tried.value < cfg.minSubmitIntervalMs;
            && t[i].weight == (if early || quick then cfg.timingWeight else 1)
            && t[i].timing == if early then Some(TooSoonAfterSend) else if quick then Some(SubmitInterval) else None
  {
    hide Run, LastStored, LastTried;
    RunTimed(cfg, es, Run(cfg, es).trace[i].uid);
    var t := Run(cfg, es).trace;
    assert RightlyTimed(cfg, t[..i], t[i].uid, t[i].at, t[i].timing, t[i].weight);
  }

  /** And so is the next one: what it is answered, what its counter is charged, and when that locks
      it out, follow from what happened so far. */
  lemma NextAttemptCharged(cfg: Settings, es: seq<Event>, link: string, email: string, code: string, random: string,
                           w: int)
    requires cfg.Limiting()
    requires var s, uid := Run(cfg, es), Uid(link, email);
             var early := TooEarly(cfg, LastStored(s.trace, uid), s.ks.now);
             var quick := TooQuick(cfg, LastTried(s.trace, uid), s.ks.now);
             w == if early || quick then cfg.timingWeight else 1
    ensures var s, uid := Run(cfg, es), Uid(link, email);
            var (k, r) := Verify(s.ks, cfg, link, email, code, random);
            var c := CounterAt(s.ks, ShareAttempt(uid));
            var live := c.Some? && s.ks.now < c.value.deadline;
            var after: Slot<nat> := if live then Slot(c.value.value + w, c.value.deadline)
                                    else Slot(w, s.ks.now + 1000 * cfg.attemptWindow);
            && RightlyTimed(cfg, s.trace, uid, s.ks.now, r.timing, w)
            && k.counters == s.ks.counters[ShareAttempt(uid) := after]
            && (r.Locked? <==> after.value > cfg.maxAttempts)
  {
    hide Run, Uid, LastStored, LastTried, Timing, Verify, TooEarly, TooQuick;
    var s, uid := Run(cfg, es), Uid(link, email);
    RunTimed(cfg, es, uid);
    TimingTold(s.ks, cfg, s.trace, uid);
    assert w == Weight(cfg, Timing(s.ks, cfg, uid));
    VerifyCharges(s.ks, cfg, link, email, code, random, w);
  }
}
