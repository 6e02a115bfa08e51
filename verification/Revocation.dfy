/** The revocation checker: is a bridge token with this id still honoured? A short-lived cache
    stands in front of the denylist. Clock readings and the denylist's answer are parameters. */
module Revocation {
  import opened Text

  datatype Config = Config(enabled: bool, cacheTtl: real, failOpen: bool, maxEntries: int)

  datatype Entry = Entry(revoked: bool, until: real)

  type Cache = map<string, Entry>

  predicate Hit(cache: Cache, jti: string, now: real) {
    jti in cache && now < cache[jti].until
  }

  function Expired(cache: Cache, now: real): set<string> {
    set k | k in cache && cache[k].until <= now
  }

  /** Dropping what has expired, and everything if that is not enough. */
  function Pruned(cache: Cache, now: real, max: int): Cache {
    var live := cache - Expired(cache, now);
    if |live| >= max then map[] else live
  }

  function Inserted(cache: Cache, cfg: Config, jti: string, revoked: bool, now: real): Cache {
    var room := if |cache| >= cfg.maxEntries then Pruned(cache, now, cfg.maxEntries) else cache;
    room[jti := Entry(revoked, now + cfg.cacheTtl)]
  }

  /** What a check that asked the denylist remembers; an unknown answer is not remembered. */
  function Remembered(cache: Cache, cfg: Config, jti: string, answer: Option<bool>, now: real): Cache {
    if answer.Some? && cfg.cacheTtl > 0.0 then Inserted(cache, cfg, jti, answer.value, now) else cache
  }

  function Decide(cfg: Config, revoked: Option<bool>): bool {
    if revoked.None? then cfg.failOpen else !revoked.value
  }

  /** The size a cache can have: the configured one, but never less than one entry. */
  function Bound(cfg: Config): nat {
    if cfg.maxEntries >= 1 then cfg.maxEntries else 1
  }

  lemma InsertedSize(cache: Cache, cfg: Config, jti: string, revoked: bool, now: real)
    requires |cache| <= Bound(cfg)
    ensures |Inserted(cache, cfg, jti, revoked, now)| <= Bound(cfg)
  {
    var room := if |cache| >= cfg.maxEntries then Pruned(cache, now, cfg.maxEntries) else cache;
    assert |room| < Bound(cfg);
  }

  /** What an insertion leaves in the cache: the new entry, and otherwise old entries only. */
  lemma InsertedEntries(cache: Cache, cfg: Config, jti: string, revoked: bool, now: real, k: string)
    requires k in Inserted(cache, cfg, jti, revoked, now)
    ensures var entry := Inserted(cache, cfg, jti, revoked, now)[k];
            if k == jti then entry == Entry(revoked, now + cfg.cacheTtl) else k in cache && entry == cache[k]
  {
  }

  /** What it drops of the others: nothing while there is room; of a full cache what has expired,
      and everything only if what has not expired still fills it. */
  lemma InsertedKeeps(cache: Cache, cfg: Config, jti: string, revoked: bool, now: real, k: string)
    requires k in cache && k != jti
    ensures var unexpired := set j | j in cache && now < cache[j].until;
            k in Inserted(cache, cfg, jti, revoked, now) <==>
              |cache| < cfg.maxEntries || (now < cache[k].until && |unexpired| < cfg.maxEntries)
  {
    var unexpired := set j | j in cache && now < cache[j].until;
    var live := cache - Expired(cache, now);
    assert live.Keys == unexpired;
    SameSize(live);
  }

  lemma SameSize(m: Cache)
    ensures |m| == |m.Keys|
  {
  }

  class RevocationChecker {
    const cfg: Config
    var cache: Cache

    constructor (cfg: Config)
      ensures this.cfg == cfg && cache == map[]
    {
      this.cfg := cfg;
      cache := map[];
    }

    method PruneLocked(now: real)
      modifies this
      ensures cache == Pruned(old(cache), now, cfg.maxEntries)
    {
      var expired := Expired(cache, now);
      ghost var gone: set<string> := {};
      while expired != {}
        invariant gone !! expired && gone + expired == Expired(old(cache), now)
        invariant cache == old(cache) - gone
        decreases expired
      {
        var k :| k in expired;
        assert old(cache) - gone - {k} == old(cache) - (gone + {k});
        cache := cache - {k};
        expired := expired - {k};
        gone := gone + {k};
      }
      assert gone == Expired(old(cache), now);
      if |cache| >= cfg.maxEntries {
        cache := map[];
      }
    }

    /** `answer` is what the denylist answers if this check asks it. */
    method Check(jti: string, now: real, answer: Option<bool>) returns (revoked: Option<bool>)
      modifies this
      ensures cfg.cacheTtl > 0.0 && Hit(old(cache), jti, now) ==>
                revoked == Some(old(cache)[jti].revoked) && cache == old(cache)
      ensures !(cfg.cacheTtl > 0.0 && Hit(old(cache), jti, now)) ==>
                revoked == answer && cache == Remembered(old(cache), cfg, jti, answer, now)
    {
      if cfg.cacheTtl > 0.0 {
        if jti in cache && cache[jti].until > now { return Some(cache[jti].revoked); }
      }
      revoked := answer;
      if revoked.Some? && cfg.cacheTtl > 0.0 {
        if |cache| >= cfg.maxEntries { PruneLocked(now); }
        cache := cache[jti := Entry(revoked.value, now + cfg.cacheTtl)];
      }
    }

    method Permits(jti: string, now: real, answer: Option<bool>) returns (ok: bool)
      modifies this
      ensures !cfg.enabled || jti == "" ==> ok && cache == old(cache)
      ensures cfg.enabled && jti != "" && cfg.cacheTtl > 0.0 && Hit(old(cache), jti, now) ==>
                ok == !old(cache)[jti].revoked && cache == old(cache)
      ensures cfg.enabled && jti != "" && !(cfg.cacheTtl > 0.0 && Hit(old(cache), jti, now)) ==>
                ok == Decide(cfg, answer) && cache == Remembered(old(cache), cfg, jti, answer, now)
    {
      if !cfg.enabled || jti == "" { return true; }
      var revoked := Check(jti, now, answer);
      if revoked.None? { return cfg.failOpen; }
      return !revoked.value;
    }
  }
}
