/**
 Properties of the dedup cache that relate several operations: the
 normalisation collision-by-design, the set/get round trip, counter accounting
 over a run of lookups, and the effect of `set` and `clear_all` on the size.
 */
module CacheProofs {
  import opened Common
  import opened Cache

  /** Two texts that differ only in letter case and in surrounding whitespace
      share one cache key, whatever the digest function is. */
  lemma KeyIgnoresCaseAndPadding(digest: string -> string, w: string, x: string, v: string, y: string)
    requires AllSpace(w) && AllSpace(v) && SameIgnoringCase(x, y)
    ensures Key(digest, w + x + v) == Key(digest, y)
  {
    LowerDistributes(w + x, v);
    LowerDistributes(w, x);
    LowerKeepsSpace(w);
    LowerKeepsSpace(v);
    SameIgnoringCaseLower(x, y);
    assert Lower(w + x + v) == w + Lower(y) + v;
    StripIgnoresPadding(w, Lower(y), v);
  }

  /** Stripping a text before looking it up (as the request handlers do) does
      not change its key. */
  lemma KeyOfStrippedText(digest: string -> string, text: string)
    ensures Key(digest, Strip(text)) == Key(digest, text)
  {
    var a, b := StripPadding(text);
    assert SameIgnoringCase(Strip(text), Strip(text));
    KeyIgnoresCaseAndPadding(digest, a, Strip(text), b, Strip(text));
  }

  /** A successful `set` of non-empty bytes is read back by `get` for any text
      with the same normalisation, as long as the read happens before the
      entry expires; the read counts as one hit. */
  lemma SetThenGet(c: CacheService, digest: string -> string, text: string, other: string,
                   data: Bytes, ttl: Option<int>, now: int, later: int)
    requires Normalize(other) == Normalize(text)
    requires |data| > 0
    requires Set(c, digest, text, data, ttl, now, false).ok
    requires later < now + EffectiveTtl(ttl)
    ensures var stored := Set(c, digest, text, data, ttl, now, false).service;
      var r := Get(stored, digest, other, later, false);
      r.value == Some(data) && r.service.hits == c.hits + 1 && r.service.misses == c.misses
  {
    assert Key(digest, other) == Key(digest, text);
  }

  /** Empty bytes can be stored, but reading them back reports a miss, because
      the lookup tests the value's truthiness. */
  lemma EmptyValueReadsAsMiss(c: CacheService, digest: string -> string, text: string,
                              ttl: Option<int>, now: int, later: int)
    requires Set(c, digest, text, [], ttl, now, false).ok
    requires later < now + EffectiveTtl(ttl)
    ensures var stored := Set(c, digest, text, [], ttl, now, false).service;
      var r := Get(stored, digest, text, later, false);
      r.value == None && r.service.misses == c.misses + 1 && r.service.hits == c.hits
  {
  }

  /** One lookup: the text, the time, and whether the store errors. */
  datatype Request = Request(text: string, now: int, fault: bool)

  /** The service after a run of `get` calls. */
  function Lookups(c: CacheService, digest: string -> string, reqs: seq<Request>): CacheService
  {
    if |reqs| == 0 then c
    else
      var last := reqs[|reqs| - 1];
      Get(Lookups(c, digest, reqs[..|reqs| - 1]), digest, last.text, last.now, last.fault).service
  }

  function Answered(c: CacheService, reqs: seq<Request>): nat
  {
    if c.client.None? then 0
    else if |reqs| == 0 then 0
    else Answered(c, reqs[..|reqs| - 1]) + if reqs[|reqs| - 1].fault then 0 else 1
  }

  /** Counter accounting: lookups never touch the store, the counters only
      grow, and together they grow by exactly the number of lookups the store
      answered (none without a client). */
  lemma {:induction false} LookupAccounting(c: CacheService, digest: string -> string, reqs: seq<Request>)
    ensures var r := Lookups(c, digest, reqs);
      && r.client == c.client
      && r.hits >= c.hits && r.misses >= c.misses
      && r.hits + r.misses == c.hits + c.misses + Answered(c, reqs)
  {
    if |reqs| > 0 {
      LookupAccounting(c, digest, reqs[..|reqs| - 1]);
    }
  }

  /** Storing under a key that was not live adds exactly one to the size. */
  lemma SetGrowsSize(c: CacheService, digest: string -> string, text: string, data: Bytes,
                     ttl: Option<int>, now: int)
    requires Set(c, digest, text, data, ttl, now, false).ok
    requires Visible(c.client.value, Key(digest, text), now).None?
    ensures Size(Set(c, digest, text, data, ttl, now, false).service, now, false)
         == Size(c, now, false) + 1
  {
    var store := c.client.value;
    var key := Key(digest, text);
    var store' := Set(c, digest, text, data, ttl, now, false).service.client.value;
    assert LiveKeys(store', now) == LiveKeys(store, now) + {key};
    assert key !in LiveKeys(store, now);
  }

  /** After a successful `clear_all` the size is zero, and every key outside
      the cache prefix is still there with its value. */
  lemma ClearAllEmptiesCache(c: CacheService, now: int)
    requires c.client.Some?
    ensures var r := ClearAll(c, false);
      && r.ok
      && Size(r.service, now, false) == 0
      && forall k :: k in c.client.value && !HasPrefix(k) ==>
           k in r.service.client.value && r.service.client.value[k] == c.client.value[k]
  {
    var r := ClearAll(c, false);
    assert LiveKeys(r.service.client.value, now) == {};
  }

  /** A written entry can be deleted before it expires, `delete` reports the
      removal, and a following read of the same text misses. */
  lemma SetDeleteGet(c: CacheService, digest: string -> string, text: string, data: Bytes,
                     ttl: Option<int>, now: int, later: int, last: int)
    requires Set(c, digest, text, data, ttl, now, false).ok
    requires later < now + EffectiveTtl(ttl)
    ensures var stored := Set(c, digest, text, data, ttl, now, false).service;
      var deleted := Delete(stored, digest, text, later, false);
      && deleted.ok
      && Get(deleted.service, digest, text, last, false).value.None?
  {
  }

  /** Deleting a live key removes exactly one key from the size. */
  lemma DeleteShrinksSize(c: CacheService, digest: string -> string, text: string, now: int)
    requires Delete(c, digest, text, now, false).ok
    ensures Size(Delete(c, digest, text, now, false).service, now, false) == Size(c, now, false) - 1
  {
    var store := c.client.value;
    var key := Key(digest, text);
    var store' := Delete(c, digest, text, now, false).service.client.value;
    assert LiveKeys(store', now) == LiveKeys(store, now) - {key};
    assert key in LiveKeys(store, now);
  }
}
