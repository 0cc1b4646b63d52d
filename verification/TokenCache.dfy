/**
 * The bounded cache in front of the token store. Every locked section keeps each entry
 * backed by an answer the store once gave, so the cache never says yes on its own.
 */
module TokenCache {
  import opened Common

  type TokenHash = string

  datatype User = User(name: string, role: string)

  /** Entry without a user: the store did not know the token. */
  datatype Entry = Entry(user: Option<User>, expiresAt: int, touchedAt: Option<int>)

  /** What the store says of a token, and until when a known one may be used. */
  datatype Answer = Failed | NotFound | Found(user: User, expiry: Option<int>)

  /** A store lookup and when its answer was put into the cache. */
  datatype Lookup = Lookup(at: int, token: TokenHash, answer: Answer)

  datatype Decision = Decision(user: Option<User>, cached: bool)

  const MAX_CACHE_SIZE := 4096

  /** An entry says no more, and for no longer, than the store answered. */
  predicate BackedBy(e: Entry, l: Lookup, token: TokenHash, ttl: int, negativeTtl: int) {
    && l.token == token
    && match e.user
       case Some(user) =>
         l.answer.Found? && l.answer.user == user && e.expiresAt <= l.at + ttl &&
         (l.answer.expiry.Some? ==> e.expiresAt <= l.answer.expiry.value)
       case None => l.answer.NotFound? && e.expiresAt == l.at + negativeTtl
  }

  predicate Backed(e: Entry, log: seq<Lookup>, token: TokenHash, ttl: int, negativeTtl: int) {
    exists l :: l in log && BackedBy(e, l, token, ttl, negativeTtl)
  }

  predicate AllBacked(cache: map<TokenHash, Entry>, log: seq<Lookup>, ttl: int, negativeTtl: int) {
    forall k :: k in cache ==> Backed(cache[k], log, k, ttl, negativeTtl)
  }

  predicate Live(e: Entry, now: int) {
    now <= e.expiresAt
  }

  predicate LivePositive(e: Entry, now: int) {
    Live(e, now) && e.user.Some?
  }

  /** The store said yes to this user, less than the time to live ago and before the token's own expiry. */
  predicate SaidYes(log: seq<Lookup>, token: TokenHash, user: User, now: int, ttl: int) {
    exists l :: l in log && l.token == token && l.answer.Found? && l.answer.user == user
      && now <= l.at + ttl && (l.answer.expiry.Some? ==> now <= l.answer.expiry.value)
  }

  predicate SaidNo(log: seq<Lookup>, token: TokenHash, now: int, negativeTtl: int) {
    exists l :: l in log && l.token == token && l.answer.NotFound? && now <= l.at + negativeTtl
  }

  /** A live entry repeats an answer of the store that still holds. */
  lemma LiveEntryIsTrue(cache: map<TokenHash, Entry>, log: seq<Lookup>, token: TokenHash, now: int, ttl: int, negativeTtl: int)
    requires AllBacked(cache, log, ttl, negativeTtl) && token in cache && Live(cache[token], now)
    ensures cache[token].user.Some? ==> SaidYes(log, token, cache[token].user.value, now, ttl)
    ensures cache[token].user.None? ==> SaidNo(log, token, now, negativeTtl)
  {
    var l :| l in log && BackedBy(cache[token], l, token, ttl, negativeTtl);
  }

  lemma MoreLookups(cache: map<TokenHash, Entry>, log: seq<Lookup>, l: Lookup, ttl: int, negativeTtl: int)
    requires AllBacked(cache, log, ttl, negativeTtl)
    ensures AllBacked(cache, log + [l], ttl, negativeTtl)
  {
    forall k | k in cache
      ensures Backed(cache[k], log + [l], k, ttl, negativeTtl)
    {
      var m :| m in log && BackedBy(cache[k], m, k, ttl, negativeTtl);
      assert m in log + [l];
    }
  }

  class PatResolver {
    const ttl: int
    const negativeTtl: int
    const touchEvery: int
    var cache: map<TokenHash, Entry>
    /** Every answer of the store that was used. */
    ghost var log: seq<Lookup>

    ghost predicate Valid()
      reads this
    {
      |cache| <= MAX_CACHE_SIZE && AllBacked(cache, log, ttl, negativeTtl)
    }

    constructor (ttl: int, negativeTtl: int, touchEvery: int)
      ensures Valid() && cache == map[] && log == []
      ensures this.ttl == ttl && this.negativeTtl == negativeTtl && this.touchEvery == touchEvery
    {
      this.ttl, this.negativeTtl, this.touchEvery := ttl, negativeTtl, touchEvery;
      cache, log := map[], [];
    }

    /** A live entry decides without the store; a use is recorded once per touch interval. */
    method FromCache(token: TokenHash, now: int) returns (user: Option<User>, cached: bool, touch: bool)
      requires Valid()
      modifies this`cache
      ensures Valid() && cached == (token in old(cache) && Live(old(cache)[token], now))
      ensures cached && user.Some? ==> SaidYes(log, token, user.value, now, ttl)
      ensures cached && user.None? ==> SaidNo(log, token, now, negativeTtl)
      ensures !cached ==> user.None? && cache == old(cache)
      ensures cached ==> user == old(cache)[token].user
      ensures cache.Keys == old(cache).Keys
      ensures forall k :: k in cache && k != token ==> cache[k] == old(cache)[k]
      ensures touch ==> cached && user.Some? && cache[token].touchedAt == Some(now)
      ensures cached && user.Some? ==> var at := old(cache)[token].touchedAt; touch == (at.None? || at.value + touchEvery <= now)
    {
      user, cached, touch := None, false, false;
      if token !in cache || now > cache[token].expiresAt {
        return;
      }
      var entry := cache[token];
      cached := true;
      LiveEntryIsTrue(cache, log, token, now, ttl, negativeTtl);
      if entry.user.None? {
        return;
      }
      user := entry.user;
      touch := entry.touchedAt.None? || now - entry.touchedAt.value >= touchEvery;
      if touch {
        ghost var l :| l in log && BackedBy(entry, l, token, ttl, negativeTtl);
        cache := cache[token := entry.(touchedAt := Some(now))];
        assert BackedBy(cache[token], l, token, ttl, negativeTtl);
      }
    }

    /** Frees a slot of a full cache: a live positive entry goes only when there is nothing else. */
    method EvictIfFull(now: int)
      requires Valid()
      modifies this`cache
      ensures Valid() && |cache| < MAX_CACHE_SIZE
      ensures |old(cache)| < MAX_CACHE_SIZE ==> cache == old(cache)
      ensures |old(cache)| == MAX_CACHE_SIZE ==>
        exists k :: k in old(cache) && cache == old(cache) - {k} &&
          (LivePositive(old(cache)[k], now) ==> forall j :: j in old(cache) ==> LivePositive(old(cache)[j], now))
    {
      if |cache| < MAX_CACHE_SIZE {
        return;
      }
      var fallback: Option<TokenHash> := None;
      var rest := cache.Keys;
      while rest != {}
        invariant cache == old(cache) && rest <= cache.Keys
        invariant forall j :: j in cache.Keys - rest ==> LivePositive(cache[j], now)
        invariant fallback.None? ==> rest == cache.Keys
        invariant fallback.Some? ==> fallback.value in cache.Keys - rest
        decreases |rest|
      {
        var k :| k in rest;
        rest := rest - {k};
        if now > cache[k].expiresAt || cache[k].user.None? {
          RemoveOne(cache, k);
          cache := cache - {k};
          return;
        }
        if fallback.None? {
          fallback := Some(k);
        }
      }
      if fallback.Some? {
        RemoveOne(cache, fallback.value);
        cache := cache - {fallback.value};
      }
    }

    static lemma RemoveOne(m: map<TokenHash, Entry>, k: TokenHash)
      requires k in m
      ensures |m - {k}| == |m| - 1
    {
      assert m.Keys == (m - {k}).Keys + {k};
      assert |m.Keys| == |(m - {k}).Keys| + 1;
    }

    /** Caches a yes until the time to live or the token's own expiry, whichever is first. */
    method StorePositive(token: TokenHash, user: User, expiry: Option<int>, now: int) returns (touch: bool)
      requires Valid()
      modifies this`cache, this`log
      ensures Valid() && log == old(log) + [Lookup(now, token, Found(user, expiry))]
      ensures token in cache && cache[token].user == Some(user)
      ensures cache[token].expiresAt == if expiry.Some? && expiry.value < now + ttl then expiry.value else now + ttl
    {
      var expiresAt := now + ttl;
      if expiry.Some? && expiry.value < expiresAt {
        expiresAt := expiry.value;
      }
      var touchedAt := Some(now);
      touch := true;
      if token in cache && cache[token].user.Some? && cache[token].touchedAt.Some? && now - cache[token].touchedAt.value < touchEvery {
        touchedAt := cache[token].touchedAt;
        touch := false;
      }
      EvictIfFull(now);
      Insert(token, Entry(Some(user), expiresAt, touchedAt), Lookup(now, token, Found(user, expiry)));
    }

    /** Caches a no for the short negative time to live. */
    method StoreNegative(token: TokenHash, now: int)
      requires Valid()
      modifies this`cache, this`log
      ensures Valid() && log == old(log) + [Lookup(now, token, NotFound)]
      ensures token in cache && cache[token] == Entry(None, now + negativeTtl, None)
    {
      EvictIfFull(now);
      Insert(token, Entry(None, now + negativeTtl, None), Lookup(now, token, NotFound));
    }

    method Insert(token: TokenHash, e: Entry, ghost l: Lookup)
      requires Valid() && |cache| < MAX_CACHE_SIZE && BackedBy(e, l, token, ttl, negativeTtl)
      modifies this`cache, this`log
      ensures Valid() && log == old(log) + [l] && cache == old(cache)[token := e]
    {
      MoreLookups(cache, log, l, ttl, negativeTtl);
      log := log + [l];
      assert l in log;
      cache := cache[token := e];
    }

    /**
     * Resolves a token: prefixed is whether it looks like one, allowed whether the lookup
     * budget admits a store query, answer what the store would say and stored when that
     * would be cached.
     */
    method ResolveToken(prefixed: bool, token: TokenHash, now: int, allowed: bool, answer: Answer, stored: int)
      returns (user: Option<User>)
      requires Valid()
      modifies this
      ensures Valid() && |cache| <= 4096
      ensures user == if !prefixed then None
                      else if token in old(cache) && Live(old(cache)[token], now) then old(cache)[token].user
                      else if allowed && answer.Found? then Some(answer.user)
                      else None
      ensures user.Some? ==> SaidYes(log, token, user.value, now, ttl) || (allowed && answer.Found? && answer.user == user.value)
      ensures !prefixed || !allowed || answer == Failed ==> log == old(log) && cache.Keys == old(cache).Keys
    {
      user := None;
      if !prefixed {
        return;
      }
      var cached, touch;
      user, cached, touch := FromCache(token, now);
      if cached {
        return;
      }
      if !allowed {
        return;
      }
      match answer {
        case Failed =>
        case NotFound => StoreNegative(token, stored);
        case Found(u, expiry) =>
          touch := StorePositive(token, u, expiry, stored);
          user := Some(u);
      }
    }
  }
}
