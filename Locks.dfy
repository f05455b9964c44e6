/** core/locks.py: `RedisLock`, a set-if-absent / compare-and-delete lock over a
    key-value store whose entries expire. Each store command is one atomic step; time and
    the lock's random token are parameters. */
module Locks {
  import opened Optional

  /** What the store keeps under a key: the holder's token and when the key expires. */
  datatype Entry = Entry(token: string, expiresAt: int)

  /** The key holds an entry whose TTL has not run out at `now`: only such a key exists
      for the store's clients; an expired one reads as absent. */
  predicate Live(m: map<string, Entry>, key: string, now: int)
  {
    key in m && m[key].expiresAt > now
  }

  /** `SET key token NX EX ttl` at `now`: writes only if the key is absent or expired. */
  function SetIfAbsent(m: map<string, Entry>, key: string, e: Entry, now: int): (r: map<string, Entry>)
    ensures key in r
    ensures Live(m, key, now) ==> r[key] == m[key]
    ensures !Live(m, key, now) ==> r[key] == e
    ensures forall k :: k != key ==> (k in r <==> k in m)
    ensures forall k :: k != key && k in m ==> r[k] == m[k]
  {
    if Live(m, key, now) then m else m[key := e]
  }

  /** The release script at `now`: `DEL key` only if `GET key` returns the token (an
      expired key returns nothing). */
  function DeleteIfOwned(m: map<string, Entry>, key: string, token: string, now: int): (r: map<string, Entry>)
    ensures r.Keys <= m.Keys
    ensures forall k :: k in r ==> r[k] == m[k]
    ensures !(Live(m, key, now) && m[key].token == token) ==> r == m
    ensures Live(m, key, now) && m[key].token == token ==> r.Keys == m.Keys - {key}
  {
    if Live(m, key, now) && m[key].token == token then m - {key} else m
  }

  /** The store shared by every worker. */
  class Store {
    var entries: map<string, Entry>

    constructor ()
      ensures entries == map[]
    {
      entries := map[];
    }

    /** `SET key token NX EX ttl`: the reply says whether the entry was written; a
        non-positive `ttl` is an invalid expire time, which the store rejects with an
        error (`None`) and no write. */
    method SetNx(key: string, token: string, now: int, ttl: int) returns (reply: Option<bool>)
      modifies this
      ensures reply.None? <==> ttl <= 0
      ensures reply.None? ==> entries == old(entries)
      ensures reply.Some? ==> && (reply.value <==> !Live(old(entries), key, now))
                              && entries == SetIfAbsent(old(entries), key, Entry(token, now + ttl), now)
    {
      if ttl <= 0 {
        return None;
      }
      reply := Some(!Live(entries, key, now));
      entries := SetIfAbsent(entries, key, Entry(token, now + ttl), now);
    }

    method EvalRelease(key: string, token: string, now: int) returns (deleted: int)
      modifies this
      ensures deleted == (if Live(old(entries), key, now) && old(entries)[key].token == token then 1 else 0)
      ensures entries == DeleteIfOwned(old(entries), key, token, now)
    {
      deleted := if Live(entries, key, now) && entries[key].token == token then 1 else 0;
      entries := DeleteIfOwned(entries, key, token, now);
    }
  }

  class RedisLock {
    const key: string
    const ttl: int
    var token: Option<string>

    constructor (key: string, ttl: int)
      ensures this.key == key && this.ttl == ttl && token == None
    {
      this.key := key;
      this.ttl := ttl;
      token := None;
    }

    /** `__aenter__` at `now`: draw a fresh token (kept even when the lock is not
        acquired) and set it under the key only if the key is absent or expired. The
        result is `None` when the store rejects the command (a non-positive TTL): then
        `__aenter__` raises and the `async with` body never runs. */
    method Enter(store: Store, newToken: string, now: int) returns (acquired: Option<bool>)
      modifies this`token, store
      ensures token == Some(newToken)
      ensures acquired.None? <==> ttl <= 0
      ensures acquired.Some? ==> (acquired.value <==> !Live(old(store.entries), key, now))
      ensures store.entries == if acquired == Some(true) then old(store.entries)[key := Entry(newToken, now + ttl)]
                               else old(store.entries)
    {
      token := Some(newToken);
      acquired := store.SetNx(key, newToken, now, ttl);
    }

    /** `__aexit__` at `now`: nothing without a token; otherwise compare-and-delete, where
        a store error (`evalFails`) is swallowed and leaves the store as it was. */
    method Exit(store: Store, now: int, evalFails: bool)
      modifies store
      ensures store.entries == if token.None? || evalFails then old(store.entries)
                               else DeleteIfOwned(old(store.entries), key, token.value, now)
    {
      if token.None? {
        return;
      }
      if !evalFails {
        var _ := store.EvalRelease(key, token.value, now);
      }
    }
  }

  /** Two acquisitions of the same free key within the first one's TTL: the second one
      fails and changes nothing. */
  lemma SecondAcquireFails(m: map<string, Entry>, key: string, a: Entry, b: Entry, t0: int, t1: int)
    requires !Live(m, key, t0) && t1 < a.expiresAt
    ensures SetIfAbsent(m, key, a, t0)[key] == a
    ensures Live(SetIfAbsent(m, key, a, t0), key, t1)
    ensures SetIfAbsent(SetIfAbsent(m, key, a, t0), key, b, t1) == SetIfAbsent(m, key, a, t0)
  {
  }

  /** The entry of a holder that never released (it crashed) stops blocking once its TTL
      has run out: the next acquisition succeeds. */
  lemma LapsedLockIsFree(m: map<string, Entry>, key: string, e: Entry, t0: int, ttl: int, t1: int)
    requires !Live(m, key, t0) && ttl > 0 && t1 >= t0 + ttl
    ensures var held := SetIfAbsent(m, key, Entry("crashed", t0 + ttl), t0);
            Live(held, key, t0) && !Live(held, key, t1) && SetIfAbsent(held, key, e, t1)[key] == e
  {
  }

  /** A's entry expires, B acquires, then A's late release runs within B's TTL: B's entry
      stays. */
  lemma LateReleaseKeepsSuccessor(m: map<string, Entry>, key: string, a: string, b: string,
                                  t0: int, t1: int, t2: int, ttl: int)
    requires !Live(m, key, t0) && a != b && t1 >= t0 + ttl && t2 < t1 + ttl
    ensures var held := SetIfAbsent(m, key, Entry(a, t0 + ttl), t0);
            var taken := SetIfAbsent(held, key, Entry(b, t1 + ttl), t1);
            && !Live(held, key, t1)
            && DeleteIfOwned(taken, key, a, t2) == taken && taken[key] == Entry(b, t1 + ttl)
  {
  }

  /** The release of a lock whose fresh token was never stored removes nothing,
      in particular not the current holder's entry. */
  lemma ForeignReleaseIsNoOp(m: map<string, Entry>, key: string, token: string, now: int)
    requires forall k :: k in m ==> m[k].token != token
    ensures DeleteIfOwned(m, key, token, now) == m
  {
  }

  /** Acquiring a free key and releasing it with the same lock before its TTL runs out
      leaves the store as it was, but for a lapsed entry the key may have held. */
  lemma AcquireReleaseRestores(m: map<string, Entry>, key: string, e: Entry, t0: int, t1: int)
    requires !Live(m, key, t0) && t1 < e.expiresAt
    ensures DeleteIfOwned(SetIfAbsent(m, key, e, t0), key, e.token, t1) == m - {key}
    ensures DeleteIfOwned(m[key := e], key, e.token, t1) == m - {key}
  {
    assert SetIfAbsent(m, key, e, t0) - {key} == m - {key};
  }

  /** One `async with` block at `now` with a fresh token, released at `releasedAt` (or
      not at all when the release script errs): what the store holds afterwards. */
  lemma LockRoundTrip(m: map<string, Entry>, key: string, token: string, ttl: int, now: int, releasedAt: int,
                      releaseFails: bool, m': map<string, Entry>)
    requires forall k :: k in m ==> m[k].token != token
    requires m' == var m1 := if Live(m, key, now) then m else m[key := Entry(token, now + ttl)];
                   if releaseFails then m1 else DeleteIfOwned(m1, key, token, releasedAt)
    ensures Live(m, key, now) ==> m' == m
    ensures !Live(m, key, now) && !releaseFails && releasedAt < now + ttl ==> m' == m - {key}
    ensures !Live(m, key, now) && (releaseFails || releasedAt >= now + ttl) ==> m' == m[key := Entry(token, now + ttl)]
  {
    if !Live(m, key, now) && !releaseFails && releasedAt < now + ttl {
      AcquireReleaseRestores(m, key, Entry(token, now + ttl), now, releasedAt);
    }
  }
}
