/** The expiring key store behind invitations, password resets, one-time codes and rate
    limits. Redis is a `Keyspace`: keys with a value and a deadline, read at the current
    clock, in milliseconds. A token, code or uid stands for its own hash (the hash is taken to be
    injective), and random tokens are parameters. Every method is one atomic step. */
module Tokens {
  import opened Text

  /** What a token or code is for; the kinds are separate namespaces of keys. */
  datatype Kind = Invite | Reset | ShareOtp | ShareRecipient | Email2fa

  datatype TokenKey = TokenKey(kind: Kind, token: string)
  datatype CodeKey = CodeKey(kind: Kind, uid: string)

  /** The names of markers and rate-limit buckets: a fixed prefix and an identifier. */
  datatype Name =
    | ShareSend(uid: string)
    | ShareSendLink(link: string)
    | ShareAttempt(uid: string)
    | ShareSentAt(uid: string)
    | ShareLastAttempt(uid: string)
    | ResetIp(ip: string)
    | ResetEmail(email: string)

  datatype Slot<T> = Slot(value: T, deadline: int)
  /** A set key; `None` is a key without a deadline. */
  datatype Index = Index(members: set<TokenKey>, deadline: Option<int>)

  datatype Keyspace = Keyspace(
    now: int,
    tokens: map<TokenKey, Slot<string>>,
    index: map<string, Index>,
    codes: map<CodeKey, Slot<string>>,
    markers: map<Name, Slot<int>>,
    counters: map<Name, Slot<nat>>)

  const EmptyKeyspace := Keyspace(0, map[], map[], map[], map[], map[])

  function Ms(seconds: int): int {
    1000 * seconds
  }

  // ---------------------------------------------------------------- Redis commands

  /** GET: a key past its deadline reads as absent. */
  function Read<K, T>(m: map<K, Slot<T>>, key: K, now: int): Option<T> {
    if key in m && now < m[key].deadline then Some(m[key].value) else None
  }

  function Get(ks: Keyspace, key: TokenKey): Option<string> {
    Read(ks.tokens, key, ks.now)
  }

  /** SETEX. */
  function SetEx(ks: Keyspace, key: TokenKey, uid: string, ttl: int): Keyspace {
    ks.(tokens := ks.tokens[key := Slot(uid, ks.now + Ms(ttl))])
  }

  /** SMEMBERS. */
  function Members(ks: Keyspace, uid: string): set<TokenKey> {
    if uid in ks.index && (ks.index[uid].deadline.Some? ==> ks.now < ks.index[uid].deadline.value)
    then ks.index[uid].members else {}
  }

  /** SADD: a missing or expired set starts afresh, without a deadline. */
  function SAdd(ks: Keyspace, uid: string, key: TokenKey): Keyspace {
    var deadline := if Members(ks, uid) == {} then None else ks.index[uid].deadline;
    ks.(index := ks.index[uid := Index(Members(ks, uid) + {key}, deadline)])
  }

  /** EXPIRE ... GT: only a later deadline replaces the present one, and a key without a
      deadline counts as lasting for ever. */
  function ExpireGt(ks: Keyspace, uid: string, ttl: int): Keyspace {
    if Members(ks, uid) == {} || ks.index[uid].deadline.None? || ks.now + Ms(ttl) <= ks.index[uid].deadline.value
    then ks
    else ks.(index := ks.index[uid := ks.index[uid].(deadline := Some(ks.now + Ms(ttl)))])
  }

  /** SREM: a set that becomes empty is gone. */
  function SRem(ks: Keyspace, uid: string, key: TokenKey): Keyspace {
    var left := Members(ks, uid) - {key};
    if left == {} then ks.(index := ks.index - {uid})
    else ks.(index := ks.index[uid := ks.index[uid].(members := left)])
  }

  /** DEL of a set of token keys. */
  function DelTokens(ks: Keyspace, keys: set<TokenKey>): Keyspace {
    ks.(tokens := ks.tokens - keys)
  }

  // ---------------------------------------------------------------- the store's operations

  function Issued(ks: Keyspace, kind: Kind, uid: string, ttl: int, token: string): Keyspace {
    ExpireGt(SAdd(SetEx(ks, TokenKey(kind, token), uid, ttl), uid, TokenKey(kind, token)), uid, ttl)
  }

  function Peek(ks: Keyspace, kind: Kind, token: string): Option<string> {
    if token == "" then None else Get(ks, TokenKey(kind, token))
  }

  function Consumed(ks: Keyspace, kind: Kind, token: string): Keyspace {
    match Peek(ks, kind, token)
    case None => ks
    case Some(uid) => SRem(DelTokens(ks, {TokenKey(kind, token)}), uid, TokenKey(kind, token))
  }

  function RevokedAll(ks: Keyspace, uid: string): Keyspace {
    var gone := DelTokens(ks, Members(ks, uid));
    gone.(index := gone.index - {uid})
  }

  /** What is left in the index: of a revoked owner nothing, of a consumed token nothing, and all
      else. */
  lemma RevokedIndex(ks: Keyspace, uid: string, other: string)
    ensures uid !in RevokedAll(ks, uid).index
    ensures other != uid ==> Members(RevokedAll(ks, uid), other) == Members(ks, other)
  {
  }

  lemma ConsumedIndex(ks: Keyspace, kind: Kind, token: string, other: string)
    requires Peek(ks, kind, token).Some?
    ensures var uid := Peek(ks, kind, token).value;
            Members(Consumed(ks, kind, token), other)
            == if other == uid then Members(ks, uid) - {TokenKey(kind, token)} else Members(ks, other)
  {
    hide Peek;
    var uid, key := Peek(ks, kind, token).value, TokenKey(kind, token);
    RemovedIndex(DelTokens(ks, {key}), uid, key, other);
  }

  lemma RemovedIndex(ks: Keyspace, uid: string, key: TokenKey, other: string)
    ensures Members(SRem(ks, uid, key), other) == if other == uid then Members(ks, uid) - {key} else Members(ks, other)
  {
  }

  function CodeIssued(ks: Keyspace, kind: Kind, uid: string, code: string, ttl: int): Keyspace {
    ks.(codes := ks.codes[CodeKey(kind, uid) := Slot(code, ks.now + Ms(ttl))])
  }

  predicate CodeMatches(ks: Keyspace, kind: Kind, uid: string, code: string) {
    code != "" && Read(ks.codes, CodeKey(kind, uid), ks.now) == Some(code)
  }

  /** A right code is deleted; a wrong one is not. */
  function CodeConsumed(ks: Keyspace, kind: Kind, uid: string, code: string): Keyspace {
    if CodeMatches(ks, kind, uid, code) then ks.(codes := ks.codes - {CodeKey(kind, uid)}) else ks
  }

  function MarkerSet(ks: Keyspace, key: Name, value: int, ttl: int): Keyspace {
    ks.(markers := ks.markers[key := Slot(value, ks.now + Ms(ttl))])
  }

  function Marker(ks: Keyspace, key: Name): Option<int> {
    Read(ks.markers, key, ks.now)
  }

  /** INCR, and EXPIRE when this was the first call of a counter's life. */
  function Bump(counter: Option<Slot<nat>>, now: int, window: int): Slot<nat> {
    if counter.Some? && now < counter.value.deadline
    then counter.value.(value := counter.value.value + 1)
    else Slot(1, now + window)
  }

  function CounterAt(ks: Keyspace, bucket: Name): Option<Slot<nat>> {
    if bucket in ks.counters then Some(ks.counters[bucket]) else None
  }

  function RateBumped(ks: Keyspace, bucket: Name, limit: int, window: int): Keyspace {
    if limit <= 0 then ks
    else ks.(counters := ks.counters[bucket := Bump(CounterAt(ks, bucket), ks.now, Ms(window))])
  }

  predicate RateAllows(ks: Keyspace, bucket: Name, limit: int, window: int) {
    limit <= 0 || Bump(CounterAt(ks, bucket), ks.now, Ms(window)).value <= limit
  }

  class TokenStore {
    /** Whether a Redis client is configured; without one the store forgets everything. */
    const enabled: bool
    var redis: Keyspace

    constructor (enabled: bool)
      ensures this.enabled == enabled && redis == EmptyKeyspace
    {
      this.enabled := enabled;
      redis := EmptyKeyspace;
    }

    method Issue(kind: Kind, uid: string, ttl: int, random: string) returns (token: string)
      requires ttl > 0
      modifies this
      ensures token == random
      ensures redis == if enabled then Issued(old(redis), kind, uid, ttl, token) else old(redis)
    {
      token := random;
      if enabled {
        var key := TokenKey(kind, token);
        redis := SetEx(redis, key, uid, ttl);
        redis := SAdd(redis, uid, key);
        redis := ExpireGt(redis, uid, ttl);
      }
    }

    method Consume(kind: Kind, token: string) returns (uid: Option<string>)
      modifies this
      ensures uid == if enabled then Peek(old(redis), kind, token) else None
      ensures redis == if enabled then Consumed(old(redis), kind, token) else old(redis)
    {
      if !enabled || token == "" { return None; }
      var key := TokenKey(kind, token);
      uid := Get(redis, key);
      if uid.Some? {
        redis := DelTokens(redis, {key});
        redis := SRem(redis, uid.value, key);
      }
    }

    method PeekToken(kind: Kind, token: string) returns (uid: Option<string>)
      ensures uid == if enabled then Peek(redis, kind, token) else None
    {
      if !enabled || token == "" { return None; }
      uid := Get(redis, TokenKey(kind, token));
    }

    method RevokeAllFor(uid: string)
      modifies this
      ensures redis == if enabled then RevokedAll(old(redis), uid) else old(redis)
    {
      if !enabled { return; }
      var keys := Members(redis, uid);
      ghost var gone: set<TokenKey> := {};
      while keys != {}
        invariant gone !! keys && gone + keys == Members(old(redis), uid)
        invariant redis == DelTokens(old(redis), gone)
        decreases keys
      {
        var k :| k in keys;
        redis := DelTokens(redis, {k});
        keys := keys - {k};
        gone := gone + {k};
        assert old(redis).tokens - gone == (old(redis).tokens - (gone - {k})) - {k};
      }
      assert gone == Members(old(redis), uid);
      redis := redis.(index := redis.index - {uid});
    }

    method IssueCode(kind: Kind, uid: string, code: string, ttl: int)
      requires ttl > 0
      modifies this
      ensures redis == if enabled then CodeIssued(old(redis), kind, uid, code, ttl) else old(redis)
    {
      if enabled {
        redis := redis.(codes := redis.codes[CodeKey(kind, uid) := Slot(code, redis.now + Ms(ttl))]);
      }
    }

    method ConsumeCode(kind: Kind, uid: string, code: string) returns (ok: bool)
      modifies this
      ensures ok == (enabled && CodeMatches(old(redis), kind, uid, code))
      ensures redis == if enabled then CodeConsumed(old(redis), kind, uid, code) else old(redis)
    {
      if !enabled || code == "" { return false; }
      var stored := Read(redis.codes, CodeKey(kind, uid), redis.now);
      if stored == Some(code) {
        redis := redis.(codes := redis.codes - {CodeKey(kind, uid)});
        return true;
      }
      return false;
    }

    method SetMarker(key: Name, value: int, ttl: int)
      requires ttl > 0
      modifies this
      ensures redis == if enabled then MarkerSet(old(redis), key, value, ttl) else old(redis)
    {
      if enabled {
        redis := redis.(markers := redis.markers[key := Slot(value, redis.now + Ms(ttl))]);
      }
    }

    method GetMarker(key: Name) returns (value: Option<int>)
      ensures value == if enabled then Marker(redis, key) else None
    {
      if !enabled { return None; }
      value := Read(redis.markers, key, redis.now);
    }

    method RateOk(bucket: Name, limit: int, window: int) returns (ok: bool)
      requires window > 0
      modifies this
      ensures ok == (!enabled || RateAllows(old(redis), bucket, limit, window))
      ensures redis == if enabled then RateBumped(old(redis), bucket, limit, window) else old(redis)
    {
      if !enabled || limit <= 0 { return true; }
      var n: nat, deadline: int := 1, redis.now + Ms(window);
      if bucket in redis.counters && redis.now < redis.counters[bucket].deadline {
        n, deadline := redis.counters[bucket].value + 1, redis.counters[bucket].deadline;
      }
      redis := redis.(counters := redis.counters[bucket := Slot(n, deadline)]);
      return n <= limit;
    }
  }
}
