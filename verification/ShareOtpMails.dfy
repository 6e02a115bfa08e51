/** How many mails the challenges of a whole run send: to one address, and for one link. */
module ShareOtpMails {
  import opened Text
  import opened Tokens
  import opened ShareOtp
  import RateLimiter

  /** The two buckets of the mail limits. */
  predicate MailBucket(b: Name) {
    b.ShareSend? || b.ShareSendLink?
  }

  function LimitOf(cfg: Settings, b: Name): int {
    if b.ShareSend? then cfg.sendPerWindow else cfg.sendPerLinkDay
  }

  function WindowOf(cfg: Settings, b: Name): int {
    if b.ShareSend? then cfg.sendWindow else 86400
  }

  /** A mail that a bucket limits. */
  predicate MailOf(e: Entry, b: Name) {
    e.CodeStored? && (b == ShareSend(e.uid) || b == ShareSendLink(e.link))
  }

  /** The mails at a moment in `[from, to)`. */
  function Mails(trace: seq<Entry>, b: Name, from: int, to: int): nat {
    if trace == [] then 0
    else
      var e := trace[|trace| - 1];
      Mails(trace[..|trace| - 1], b, from, to) + if MailOf(e, b) && from <= e.at < to then 1 else 0
  }

  lemma MailsAdd(trace: seq<Entry>, e: Entry, b: Name, from: int, to: int)
    ensures Mails(trace + [e], b, from, to)
            == Mails(trace, b, from, to) + if MailOf(e, b) && from <= e.at < to then 1 else 0
  {
    assert (trace + [e])[..|trace|] == trace;
  }

  // ---------------------------------------------------------------- what a challenge asks

  predicate Asks(ks: Keyspace, cfg: Settings, link: string, uid: string, b: Name) {
    || b == ShareSend(uid)
    || (b == ShareSendLink(link) && RateAllows(ks, ShareSend(uid), cfg.sendPerWindow, cfg.sendWindow))
  }

  lemma SendAsks(ks: Keyspace, cfg: Settings, link: string, uid: string, b: Name)
    requires MailBucket(b) && LimitOf(cfg, b) > 0
    ensures var (k, wait) := SendAllowed(ks, cfg, link, uid);
            var next := Bump(CounterAt(ks, b), ks.now, 1000 * WindowOf(cfg, b));
            && k.now == ks.now
            && CounterAt(k, b) == (if Asks(ks, cfg, link, uid, b) then Some(next) else CounterAt(ks, b))
            && (wait.None? && (b == ShareSend(uid) || b == ShareSendLink(link)) ==>
                  Asks(ks, cfg, link, uid, b) && next.value <= LimitOf(cfg, b))
  {
    hide Bump;
    BumpFrame(ks, ShareSend(uid), cfg.sendPerWindow, cfg.sendWindow);
    BumpFrame(RateBumped(ks, ShareSend(uid), cfg.sendPerWindow, cfg.sendWindow), ShareSendLink(link),
              cfg.sendPerLinkDay, 86400);
  }

  lemma ChallengeAsks(ks: Keyspace, cfg: Settings, link: string, email: string, code: string, delivered: bool, b: Name)
    requires MailBucket(b) && LimitOf(cfg, b) > 0
    ensures var (k, r) := Challenged(ks, cfg, link, email, code, delivered);
            var next := Bump(CounterAt(ks, b), ks.now, 1000 * WindowOf(cfg, b));
            var asks := Asks(ks, cfg, link, Uid(link, email), b);
            && k.now == ks.now
            && CounterAt(k, b) == (if asks then Some(next) else CounterAt(ks, b))
            && (!r.RateLimited? && MailOf(StoredEntry(ks, cfg, link, email, code), b) ==>
                  asks && next.value <= LimitOf(cfg, b))
  {
    hide SendAllowed, Bump, Uid, Asks;
    var uid := Uid(link, email);
    SendAsks(ks, cfg, link, uid, b);
    var e := StoredEntry(ks, cfg, link, email, code);
    assert e.uid == uid && e.link == link;
    var r := Challenged(ks, cfg, link, email, code, delivered).1;
    assert r.RateLimited? <==> SendAllowed(ks, cfg, link, uid).1.Some?;
  }

  function Live(c: Option<Slot<nat>>, now: int): nat {
    if c.Some? && now < c.value.deadline then c.value.value else 0
  }

  /** What a challenge is answered: the wait of the first limit that is used up, and otherwise
      whether the mail went out. */
  lemma ChallengeAnswers(ks: Keyspace, cfg: Settings, link: string, email: string, code: string, delivered: bool)
    ensures var uid := Uid(link, email);
            var sent, sentForLink := CounterAt(ks, ShareSend(uid)), CounterAt(ks, ShareSendLink(link));
            var byAddress := cfg.sendPerWindow > 0 && Live(sent, ks.now) >= cfg.sendPerWindow;
            var byLink := cfg.sendPerLinkDay > 0 && Live(sentForLink, ks.now) >= cfg.sendPerLinkDay;
            Challenged(ks, cfg, link, email, code, delivered).1
            == if byAddress then RateLimited(cfg.sendWindow) else if byLink then RateLimited(86400)
               else if delivered then Sent else SendFailed
  {
    hide Uid;
    BumpFrame(ks, ShareSend(Uid(link, email)), cfg.sendPerWindow, cfg.sendWindow);
  }

  // ---------------------------------------------------------------- whole runs

  /** The moments at which the challenges of a run asked a limit. */
  function Asked(cfg: Settings, es: seq<Event>, b: Name): seq<int> {
    if es == [] then []
    else
      var s, e := Run(cfg, es[..|es| - 1]), es[|es| - 1];
      Asked(cfg, es[..|es| - 1], b)
      + if e.DoChallenge? && Asks(s.ks, cfg, e.link, Uid(e.link, e.email), b) then [s.ks.now] else []
  }

  /** The counter is that of the calls made, and no more mails went out than calls got through. */
  ghost predicate Accounted(cfg: Settings, s: State, times: seq<int>, b: Name, from: int, to: int) {
    && RateLimiter.Ordered(times) && (times != [] ==> times[|times| - 1] <= s.ks.now)
    && CounterAt(s.ks, b) == RateLimiter.CounterAfter(None, times, 1000 * WindowOf(cfg, b))
    && Mails(s.trace, b, from, to)
       <= RateLimiter.Count(None, times, LimitOf(cfg, b), 1000 * WindowOf(cfg, b), from, to)
  }

  lemma {:induction false} ChargeOthers(ks: Keyspace, bucket: Name, limit: int, window: int, n: int, b: Name)
    requires b != bucket
    ensures CounterAt(Charge(ks, bucket, limit, window, n).0, b) == CounterAt(ks, b)
    ensures Charge(ks, bucket, limit, window, n).0.now == ks.now
    decreases if n > 0 then n else 0
  {
    hide CounterAt, RateBumped, RateAllows;
    if n > 0 {
      ChargeOthers(ks, bucket, limit, window, n - 1, b);
      BumpFrame(Charge(ks, bucket, limit, window, n - 1).0, bucket, limit, window);
    }
  }

  lemma VerifyOthers(ks: Keyspace, cfg: Settings, link: string, email: string, code: string, random: string, b: Name)
    requires MailBucket(b)
    ensures var k := Verify(ks, cfg, link, email, code, random).0;
            CounterAt(k, b) == CounterAt(ks, b) && k.now == ks.now
  {
    hide Charge, Timing, Uid;
    var uid := Uid(link, email);
    var k1 := MarkerSet(ks, ShareLastAttempt(uid), ks.now, cfg.attemptWindow);
    ChargeOthers(k1, ShareAttempt(uid), cfg.maxAttempts, cfg.attemptWindow, Weight(cfg, Timing(ks, cfg, uid)), b);
  }

  lemma VerifyAccounted(cfg: Settings, s: State, e: Event, times: seq<int>, b: Name, from: int, to: int)
    requires e.DoVerify? && MailBucket(b) && Accounted(cfg, s, times, b, from, to)
    ensures Accounted(cfg, Step(s, cfg, e), times, b, from, to)
  {
    hide Step, Verify, Uid, CounterAt, RateLimiter.CounterAfter, RateLimiter.Count, RateLimiter.Ordered;
    if e.random in s.used {
      SkippedVerify(s, cfg, e);
    } else {
      VerifyStep(s, cfg, e);
      VerifyOthers(s.ks, cfg, e.link, e.email, e.code, e.random, b);
      var (attempt, mint) := VerifyEntries(s.ks, cfg, e.link, e.email, e.code, e.random);
      MailsAdd(s.trace, attempt, b, from, to);
      MailsAdd(s.trace + [attempt], mint, b, from, to);
    }
  }

  lemma SkippedVerify(s: State, cfg: Settings, e: Event)
    requires e.DoVerify? && e.random in s.used
    ensures Step(s, cfg, e) == s
  {
  }

  lemma ChallengeAccounted(cfg: Settings, s: State, e: Event, times: seq<int>, b: Name, from: int, to: int)
    requires e.DoChallenge? && MailBucket(b) && LimitOf(cfg, b) > 0 && Accounted(cfg, s, times, b, from, to)
    ensures var more := if Asks(s.ks, cfg, e.link, Uid(e.link, e.email), b) then [s.ks.now] else [];
            Accounted(cfg, Step(s, cfg, e), times + more, b, from, to)
  {
    hide Challenged, Uid, CounterAt, Asks, Bump, RateLimiter.CounterAfter, RateLimiter.Count, MailOf, Mails;
    ChallengeAsks(s.ks, cfg, e.link, e.email, e.code, e.delivered, b);
    RateLimiter.CountNext(None, times, s.ks.now, LimitOf(cfg, b), 1000 * WindowOf(cfg, b), from, to);
    MailsAdd(s.trace, StoredEntry(s.ks, cfg, e.link, e.email, e.code), b, from, to);
    assert times + [] == times;
  }

  lemma {:induction false} RunAccounted(cfg: Settings, es: seq<Event>, b: Name, from: int, to: int)
    requires MailBucket(b) && LimitOf(cfg, b) > 0
    ensures Accounted(cfg, Run(cfg, es), Asked(cfg, es, b), b, from, to)
  {
    hide Challenged, Verify, Uid, Asks, RateLimiter.Count, Mails;
    if es == [] {
      NothingSent(cfg, b, from, to);
    } else {
      var s, e := Run(cfg, es[..|es| - 1]), es[|es| - 1];
      RunAccounted(cfg, es[..|es| - 1], b, from, to);
      var times := Asked(cfg, es[..|es| - 1], b);
      assert times + [] == times;
      match e
      case DoChallenge(_, _, _, _) => ChallengeAccounted(cfg, s, e, times, b, from, to);
      case DoVerify(_, _, _, _) => VerifyAccounted(cfg, s, e, times, b, from, to);
      case Wait(ms) =>
    }
  }

  lemma NothingSent(cfg: Settings, b: Name, from: int, to: int)
    ensures Accounted(cfg, Init(), [], b, from, to)
  {
  }

  /** Over any run, an address is sent at most twice its limit less one code in any stretch as long
      as its window; */
  lemma MailsPerAddress(cfg: Settings, es: seq<Event>, link: string, email: string, from: int)
    requires cfg.sendPerWindow > 0 && cfg.sendWindow > 0
    ensures Mails(Run(cfg, es).trace, ShareSend(Uid(link, email)), from, from + 1000 * cfg.sendWindow)
            <= 2 * cfg.sendPerWindow - 1
  {
    hide Run, Uid, Mails, RateLimiter.Count, RateLimiter.CounterAfter;
    var b := ShareSend(Uid(link, email));
    RunAccounted(cfg, es, b, from, from + 1000 * cfg.sendWindow);
    RateLimiter.SlidingBound(None, Asked(cfg, es, b), cfg.sendPerWindow, 1000 * cfg.sendWindow, from);
  }

  /** and for a link, whatever the addresses, at most twice its limit less one go out in any 24 hours. */
  lemma MailsPerLink(cfg: Settings, es: seq<Event>, link: string, from: int)
    requires cfg.sendPerLinkDay > 0
    ensures Mails(Run(cfg, es).trace, ShareSendLink(link), from, from + 24 * 60 * 60 * 1000)
            <= 2 * cfg.sendPerLinkDay - 1
  {
    hide Run, Mails, RateLimiter.Count, RateLimiter.CounterAfter;
    var b := ShareSendLink(link);
    RunAccounted(cfg, es, b, from, from + 86400000);
    RateLimiter.SlidingBound(None, Asked(cfg, es, b), cfg.sendPerLinkDay, 86400000, from);
  }
}
