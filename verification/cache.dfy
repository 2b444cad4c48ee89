/**
 The deduplicating audio cache (app/services/cache_service.py). The Redis
 client is either absent (`redis_client is None`) or present with the key space
 it holds, a map from key to value and absolute expiry time. Every operation
 takes the current time `now` and whether the store raises a `RedisError` on
 this call (`fault`), and is fail-soft: a store error is never an exception.
 Texts are Dafny strings, which hold only Unicode scalar values, so encoding
 the normalised text for the digest cannot fail here. The
 SHA-256 hex digest is the parameter `digest`, about which nothing is known.
 */
module Cache {
  import opened Common
  import Config

  const KeyPrefix: string := "tts:audio:"

  /** A stored value and the instant (in seconds) at which Redis expires it. */
  datatype Entry = Entry(data: Bytes, expiresAt: int)

  type Store = map<string, Entry>

  /** The service's state: the client's key space if connected, and the
      in-process hit and miss counters. */
  datatype CacheService = CacheService(client: Option<Store>, hits: nat, misses: nat)

  /** A service as constructed: not connected, both counters at zero. */
  const Unconnected := CacheService(None, 0, 0)

  /** `ping`: true exactly when a client exists and answers. */
  function Ping(c: CacheService, fault: bool): (up: bool)
    ensures up <==> c.client.Some? && !fault
  {
    c.client.Some? && !fault
  }

  /** The text the key is derived from: lower-cased, then stripped. */
  function Normalize(text: string): string
  {
    Strip(Lower(text))
  }

  predicate HasPrefix(k: string)
  {
    |k| >= |KeyPrefix| && k[..|KeyPrefix|] == KeyPrefix
  }

  /** `_generate_key`: the prefix followed by the digest of the normalised text. */
  function Key(digest: string -> string, text: string): (k: string)
    ensures HasPrefix(k)
    ensures k[|KeyPrefix|..] == digest(Normalize(text))
  {
    KeyPrefix + digest(Normalize(text))
  }

  /** What Redis `GET` returns: the value of a key that exists and has not expired. */
  function Visible(store: Store, key: string, now: int): (r: Option<Bytes>)
    ensures r.Some? <==> key in store && now < store[key].expiresAt
    ensures r.Some? ==> r.value == store[key].data
  {
    if key in store && now < store[key].expiresAt then Some(store[key].data) else None
  }

  /** The keys a `SCAN MATCH tts:audio:*` enumerates. */
  function LiveKeys(store: Store, now: int): (ks: set<string>)
    ensures forall k :: k in ks <==> k in store && HasPrefix(k) && Visible(store, k, now).Some?
  {
    set k | k in store && HasPrefix(k) && now < store[k].expiresAt
  }

  datatype Lookup = Lookup(value: Option<Bytes>, service: CacheService)

  /** `get`: without a client or on a store error, `None` and no counter moves;
      otherwise exactly one counter moves. A present, non-empty value is a hit
      and is returned; an absent, expired or empty value is a miss. */
  function Get(c: CacheService, digest: string -> string, text: string, now: int, fault: bool): (r: Lookup)
    ensures r.service.client == c.client
    ensures c.client.None? || fault ==> r == Lookup(None, c)
    ensures c.client.Some? && !fault ==>
      var found := Visible(c.client.value, Key(digest, text), now);
      && (r.value.Some? <==> found.Some? && |found.value| > 0)
      && (r.value.Some? ==> r.value == found && r.service.hits == c.hits + 1 && r.service.misses == c.misses)
      && (r.value.None? ==> r.service.misses == c.misses + 1 && r.service.hits == c.hits)
  {
    match c.client
    case None => Lookup(None, c)
    case Some(store) =>
      if fault then Lookup(None, c)
      else
        var data := Visible(store, Key(digest, text), now);
        if data.Some? && |data.value| > 0 then Lookup(data, c.(hits := c.hits + 1))
        else Lookup(None, c.(misses := c.misses + 1))
  }

  /** `ttl or settings.REDIS_CACHE_TTL`: both `None` and `0` select the default. */
  function EffectiveTtl(ttl: Option<int>): (t: int)
    ensures ttl.None? || ttl == Some(0) ==> t == Config.Defaults.redisCacheTtl
    ensures ttl.Some? && ttl.value != 0 ==> t == ttl.value
  {
    match ttl
    case None => Config.Defaults.redisCacheTtl
    case Some(t) => if t == 0 then Config.Defaults.redisCacheTtl else t
  }

  datatype Written = Written(ok: bool, service: CacheService)

  /** `set`: stores the bytes under the text's key for the effective TTL and
      reports success. Without a client, on a store error, or when Redis
      refuses a non-positive expiry (a negative `ttl` passes the `or` default),
      it reports failure and the store is unchanged. The counters never move. */
  function Set(c: CacheService, digest: string -> string, text: string, data: Bytes,
               ttl: Option<int>, now: int, fault: bool): (r: Written)
    ensures r.service.hits == c.hits && r.service.misses == c.misses
    ensures r.ok <==> c.client.Some? && !fault && EffectiveTtl(ttl) > 0
    ensures !r.ok ==> r.service == c
    ensures r.ok ==>
      r.service.client == Some(c.client.value[Key(digest, text) := Entry(data, now + EffectiveTtl(ttl))])
  {
    match c.client
    case None => Written(false, c)
    case Some(store) =>
      var seconds := EffectiveTtl(ttl);
      var key := Key(digest, text);
      if fault || seconds <= 0 then Written(false, c)
      else Written(true, CacheService(Some(store[key := Entry(data, now + seconds)]), c.hits, c.misses))
  }

  /** `delete`: true only when a live key was actually removed; false when it
      was absent, there is no client, or the store errors. */
  function Delete(c: CacheService, digest: string -> string, text: string, now: int, fault: bool): (r: Written)
    ensures r.service.hits == c.hits && r.service.misses == c.misses
    ensures r.ok <==> c.client.Some? && !fault && Visible(c.client.value, Key(digest, text), now).Some?
    ensures c.client.None? || fault ==> r.service == c
    ensures c.client.Some? && !fault ==>
      r.service.client.Some?
      && Key(digest, text) !in r.service.client.value
      && (forall k :: k in r.service.client.value <==> k in c.client.value && k != Key(digest, text))
      && forall k :: k in r.service.client.value ==> r.service.client.value[k] == c.client.value[k]
  {
    match c.client
    case None => Written(false, c)
    case Some(store) =>
      if fault then Written(false, c)
      else
        var key := Key(digest, text);
        Written(Visible(store, key, now).Some?, c.(client := Some(store - {key})))
  }

  /** `clear_all`: removes every key under the cache prefix and no other key;
      succeeds even when nothing matched. Without a client or on a store error
      it reports failure and removes nothing. */
  function ClearAll(c: CacheService, fault: bool): (r: Written)
    ensures r.service.hits == c.hits && r.service.misses == c.misses
    ensures r.ok <==> c.client.Some? && !fault
    ensures !r.ok ==> r.service == c
    ensures r.ok ==> r.service.client.Some?
    ensures r.ok ==> forall k :: k in r.service.client.value <==> k in c.client.value && !HasPrefix(k)
    ensures r.ok ==> forall k :: k in r.service.client.value ==> r.service.client.value[k] == c.client.value[k]
  {
    match c.client
    case None => Written(false, c)
    case Some(store) =>
      if fault then Written(false, c)
      else Written(true, c.(client := Some(map k | k in store && !HasPrefix(k) :: store[k])))
  }

  /** `get_size`: the number of live keys under the cache prefix, and 0 without
      a client or on a store error. */
  function Size(c: CacheService, now: int, fault: bool): (n: nat)
    ensures c.client.None? || fault ==> n == 0
    ensures c.client.Some? && !fault ==> n == |LiveKeys(c.client.value, now)|
    ensures c.client.Some? ==> n <= |c.client.value|
  {
    match c.client
    case None => 0
    case Some(store) =>
      if fault then 0
      else
        var live := LiveKeys(store, now);
        assert live <= store.Keys;
        Subsetcard(live, store.Keys);
        |live|
  }

  lemma Subsetcard<T>(a: set<T>, b: set<T>)
    requires a <= b
    ensures |a| <= |b|
  {
    if a != {} {
      var x :| x in a;
      Subsetcard(a - {x}, b - {x});
    }
  }

  datatype Stats = Stats(
    hits: nat,
    misses: nat,
    totalRequests: nat,
    hitRate: real,
    reductionPercentage: real,
    redisConnected: bool)

  /** `get_stats`: the counters, their total, the hit rate as an exact
      percentage (0 before any lookup), the reduction percentage equal to it,
      and whether Redis answered the `INFO` request. Nothing is modified. */
  function GetStats(c: CacheService, infoFault: bool): (s: Stats)
    ensures s.hits == c.hits && s.misses == c.misses
    ensures s.totalRequests == c.hits + c.misses
    ensures 0.0 <= s.hitRate <= 100.0
    ensures s.totalRequests == 0 ==> s.hitRate == 0.0
    ensures s.totalRequests > 0 ==> s.hitRate * s.totalRequests as real == 100.0 * s.hits as real
    ensures s.reductionPercentage == s.hitRate
    ensures s.redisConnected <==> c.client.Some? && !infoFault
  {
    var total := c.hits + c.misses;
    var rate := if total > 0 then c.hits as real / total as real * 100.0 else 0.0;
    Stats(c.hits, c.misses, total, rate, rate, c.client.Some? && !infoFault)
  }
}
