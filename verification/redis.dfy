/** The cache client shared by every domain service: a thin wrapper over a
    Redis server whose own failures are logged and absorbed.  The server's
    keyspace is the `store` map; an entry written with an expiry stays in the
    map after it expires, but no command sees it any more. */
module Redis {
  import opened Wrappers
  import Glob

  datatype Entry<V> = Entry(value: V, expiresAt: Option<int>)

  type Store<V> = map<string, Entry<V>>

  /** Whether an entry is still visible at time `now` (seconds). */
  predicate Alive<V>(e: Entry<V>, now: int) {
    e.expiresAt.None? || now < e.expiresAt.value
  }

  /** What `GET key` answers at time `now`: `None` is a cache miss. */
  function Lookup<V>(store: Store<V>, key: string, now: int): Option<V> {
    if key in store && Alive(store[key], now) then Some(store[key].value) else None
  }

  /** The keyspace after `SET key value [EX ttl]`: a falsy TTL (absent or 0)
      writes a plain SET with no expiry, a positive one `EX ttl`, and Redis
      refuses a negative one, so nothing is written. */
  function Put<V>(store: Store<V>, key: string, value: V, ttl: Option<int>, now: int): Store<V> {
    if ttl.None? || ttl.value == 0 then store[key := Entry(value, None)]
    else if ttl.value > 0 then store[key := Entry(value, Some(now + ttl.value))]
    else store
  }

  /** The keyspace after `DEL`/`UNLINK` of `keys`; absent keys are ignored. */
  function Remove<V>(store: Store<V>, keys: set<string>): Store<V> {
    map k | k in store && k !in keys :: store[k]
  }

  /** The visible keys that match a glob: what `KEYS pattern` lists. */
  function LiveMatches<V>(store: Store<V>, pattern: string, now: int): set<string> {
    set k | k in store && Alive(store[k], now) && Glob.Matches(pattern, k)
  }

  /** The reconnect back-off in milliseconds after `times` failed attempts. */
  function RetryDelay(times: int): (delay: int)
    ensures delay <= 2000
    ensures times >= 0 ==> delay >= 0
    ensures delay <= times * 50
    ensures delay == 2000 || delay == times * 50
  {
    if times * 50 < 2000 then times * 50 else 2000
  }

  lemma RetryDelayMonotone(a: int, b: int)
    requires a <= b
    ensures RetryDelay(a) <= RetryDelay(b)
  {
  }

  lemma RetryDelayCap(times: int)
    requires times >= 40
    ensures RetryDelay(times) == 2000
  {
  }

  // ---------------------------------------------------------------------
  // What the store functions promise.

  /** After a write with a positive TTL the value is visible until the TTL
      has elapsed, and a miss afterwards. */
  lemma PutWithTtl<V>(store: Store<V>, key: string, value: V, ttl: int, now: int, later: int)
    requires ttl > 0 && now <= later
    ensures Lookup(Put(store, key, value, Some(ttl), now), key, later)
         == if later < now + ttl then Some(value) else None
  {
  }

  /** A write with no TTL or TTL 0 never expires. */
  lemma PutWithoutTtl<V>(store: Store<V>, key: string, value: V, ttl: Option<int>, now: int, later: int)
    requires ttl.None? || ttl.value == 0
    ensures Lookup(Put(store, key, value, ttl, now), key, later) == Some(value)
  {
  }

  /** A write replaces its own key only; every other key keeps its entry. */
  lemma PutOnlyTouchesKey<V>(store: Store<V>, key: string, value: V, ttl: Option<int>, now: int, other: string)
    requires other != key
    ensures other in Put(store, key, value, ttl, now) <==> other in store
    ensures other in store ==> Put(store, key, value, ttl, now)[other] == store[other]
  {
  }

  /** Removal deletes exactly the named keys. */
  lemma RemoveExactly<V>(store: Store<V>, keys: set<string>, k: string)
    ensures k in Remove(store, keys) <==> k in store && k !in keys
    ensures k in Remove(store, keys) ==> Remove(store, keys)[k] == store[k]
  {
  }

  /** Deleting twice is the same as deleting once. */
  lemma RemoveIdempotent<V>(store: Store<V>, keys: set<string>)
    ensures Remove(Remove(store, keys), keys) == Remove(store, keys)
  {
  }

  lemma RemoveNothing<V>(store: Store<V>)
    ensures Remove(store, {}) == store
  {
  }

  lemma RemoveTwice<V>(store: Store<V>, a: set<string>, b: set<string>)
    ensures Remove(Remove(store, a), b) == Remove(store, a + b)
  {
  }

  // ---------------------------------------------------------------------
  // SCAN, as the server answers it.

  /** One answer of `SCAN cursor MATCH pattern COUNT 1000`: the next cursor
      and a batch of keys, or a failed command. */
  datatype ScanReply = Batch(cursor: string, keys: seq<string>) | ScanFailed

  /** An answer after which the cursor loop stops: cursor "0", or an error. */
  predicate Ends(r: ScanReply) {
    r.ScanFailed? || r.cursor == "0"
  }

  /** The answers of one run of the cursor loop: every answer but the last
      hands back a non-zero cursor. */
  predicate IsScanRun(steps: seq<ScanReply>) {
    && |steps| > 0
    && Ends(steps[|steps| - 1])
    && forall i :: 0 <= i < |steps| - 1 ==> !Ends(steps[i])
  }

  /** Whether the loop came back to cursor "0" rather than failing. */
  predicate Completed(steps: seq<ScanReply>)
    requires |steps| > 0
  {
    steps[|steps| - 1].Batch?
  }

  function BatchKeys(r: ScanReply): set<string> {
    if r.Batch? then set k | k in r.keys else {}
  }

  function BatchSize(r: ScanReply): nat {
    if r.Batch? then |r.keys| else 0
  }

  /** Every key some batch handed back. */
  function Visited(steps: seq<ScanReply>): set<string> {
    if steps == [] then {} else Visited(steps[..|steps| - 1]) + BatchKeys(steps[|steps| - 1])
  }

  /** The number of deletions issued: one per key in each batch. */
  function BatchTotal(steps: seq<ScanReply>): nat {
    if steps == [] then 0 else BatchTotal(steps[..|steps| - 1]) + BatchSize(steps[|steps| - 1])
  }

  /** The SCAN contract: every batch only holds keys that are visible and
      match the pattern. */
  predicate ScanSound<V>(store: Store<V>, pattern: string, now: int, steps: seq<ScanReply>) {
    forall i :: 0 <= i < |steps| ==> BatchKeys(steps[i]) <= LiveMatches(store, pattern, now)
  }

  /** The full-iteration guarantee of SCAN: a run that comes back to cursor
      "0" has handed back every key that was present and matching throughout. */
  predicate ScanCovers<V>(store: Store<V>, pattern: string, now: int, steps: seq<ScanReply>)
    requires |steps| > 0
  {
    Completed(steps) ==> LiveMatches(store, pattern, now) <= Visited(steps)
  }

  lemma {:induction false} VisitedWithin<V>(store: Store<V>, pattern: string, now: int, steps: seq<ScanReply>)
    requires ScanSound(store, pattern, now, steps)
    ensures Visited(steps) <= LiveMatches(store, pattern, now)
  {
    if steps != [] {
      var init := steps[..|steps| - 1];
      assert ScanSound(store, pattern, now, init) by {
        forall i | 0 <= i < |init| ensures BatchKeys(init[i]) <= LiveMatches(store, pattern, now) {
          assert init[i] == steps[i];
        }
      }
      VisitedWithin(store, pattern, now, init);
    }
  }

  /** A completed pattern deletion leaves no visible key matching the pattern. */
  lemma DelPatternClears<V>(store: Store<V>, pattern: string, now: int, steps: seq<ScanReply>)
    requires IsScanRun(steps) && Completed(steps)
    requires ScanCovers(store, pattern, now, steps)
    ensures LiveMatches(Remove(store, Visited(steps)), pattern, now) == {}
  {
    var after := Remove(store, Visited(steps));
    forall k | k in after
      ensures !(Alive(after[k], now) && Glob.Matches(pattern, k))
    {
      assert after[k] == store[k];
    }
  }

  /** A pattern deletion touches no key that does not match the pattern. */
  lemma DelPatternSpares<V>(store: Store<V>, pattern: string, now: int, steps: seq<ScanReply>, k: string)
    requires ScanSound(store, pattern, now, steps)
    requires k in store && !Glob.Matches(pattern, k)
    ensures k in Remove(store, Visited(steps)) && Remove(store, Visited(steps))[k] == store[k]
  {
    VisitedWithin(store, pattern, now, steps);
  }

  /** A pattern nothing matches deletes nothing and reports 0. */
  lemma {:induction false} DelPatternZeroMatch<V>(store: Store<V>, pattern: string, now: int, steps: seq<ScanReply>)
    requires ScanSound(store, pattern, now, steps)
    requires LiveMatches(store, pattern, now) == {}
    ensures BatchTotal(steps) == 0
    ensures Remove(store, Visited(steps)) == store
  {
    VisitedWithin(store, pattern, now, steps);
    if steps != [] {
      var init := steps[..|steps| - 1];
      assert ScanSound(store, pattern, now, init) by {
        forall i | 0 <= i < |init| ensures BatchKeys(init[i]) <= LiveMatches(store, pattern, now) {
          assert init[i] == steps[i];
        }
      }
      DelPatternZeroMatch(store, pattern, now, init);
      EmptyBatch(steps[|steps| - 1]);
    }
  }

  lemma EmptyBatch(r: ScanReply)
    ensures BatchKeys(r) == {} ==> BatchSize(r) == 0
  {
    if r.Batch? && r.keys != [] {
      assert r.keys[0] in BatchKeys(r);
    }
  }

  /** The reported count is at least the number of distinct keys deleted;
      a key that SCAN hands back twice is counted twice. */
  lemma {:induction false} BatchTotalBound(steps: seq<ScanReply>)
    ensures |Visited(steps)| <= BatchTotal(steps)
  {
    if steps != [] {
      BatchTotalBound(steps[..|steps| - 1]);
      var last := steps[|steps| - 1];
      if last.Batch? {
        SeqSetSize(last.keys);
      }
    }
  }

  lemma {:induction false} SeqSetSize(s: seq<string>)
    ensures |set k | k in s| <= |s|
  {
    if s != [] {
      SeqSetSize(s[1..]);
      assert (set k | k in s) == (set k | k in s[1..]) + {s[0]};
    }
  }

  /** The keys one `del` call names: a single key or a list of keys. */
  datatype KeyArg = One(key: string) | Many(keys: seq<string>)

  function KeySet(arg: KeyArg): set<string> {
    match arg
    case One(k) => {k}
    case Many(ks) => set k | k in ks
  }

  predicate NoDuplicates(s: seq<string>) {
    forall i, j :: 0 <= i < j < |s| ==> s[i] != s[j]
  }

  /** The client.  `up` says whether the server answers at all: when it does
      not, every command fails, and the failure is logged and absorbed. */
  class RedisService<V> {
    var store: Store<V>
    var up: bool

    constructor (initial: Store<V>, connected: bool)
      ensures store == initial && up == connected
    {
      store := initial;
      up := connected;
    }

    /** What `get` answers: the visible value, or `None` on a miss or a failure. */
    function Cached(key: string, now: int): Option<V>
      reads this
    {
      if up then Lookup(store, key, now) else None
    }

    function AfterSet(key: string, value: V, ttl: Option<int>, now: int): Store<V>
      reads this
    {
      if up then Put(store, key, value, ttl, now) else store
    }

    function AfterDel(keys: set<string>): Store<V>
      reads this
    {
      if up then Remove(store, keys) else store
    }

    method Get(key: string, now: int) returns (r: Option<V>)
      ensures r == Cached(key, now)
      ensures r.Some? ==> up && key in store && store[key].value == r.value
    {
      if up {
        r := Lookup(store, key, now);
      } else {
        r := None;
      }
    }

    method Set(key: string, value: V, ttl: Option<int>, now: int)
      modifies this`store
      ensures store == old(AfterSet(key, value, ttl, now))
    {
      if up {
        store := Put(store, key, value, ttl, now);
      }
    }

    method Del(arg: KeyArg)
      modifies this`store
      ensures store == old(AfterDel(KeySet(arg)))
      ensures arg == Many([]) ==> store == old(store)
    {
      if arg.Many? && |arg.keys| == 0 {
        RemoveNothing(store);
        return;
      }
      if up {
        store := Remove(store, KeySet(arg));
      }
    }

    /** `KEYS pattern`: the server lists each visible matching key once, in
        an order of its choosing; a failure yields the empty list. */
    method Keys(pattern: string, now: int) returns (r: seq<string>)
      ensures up ==> forall k :: k in r <==> k in LiveMatches(store, pattern, now)
      ensures up ==> NoDuplicates(r)
      ensures !up ==> r == []
    {
      r := [];
      if !up {
        return;
      }
      var pending := LiveMatches(store, pattern, now);
      while pending != {}
        invariant forall k :: k in r <==> k in LiveMatches(store, pattern, now) && k !in pending
        invariant pending <= LiveMatches(store, pattern, now)
        invariant NoDuplicates(r)
        decreases |pending|
      {
        var k :| k in pending;
        r := r + [k];
        pending := pending - {k};
      }
    }

    method FlushAll()
      modifies this`store
      ensures store == if up then map[] else old(store)
    {
      if up {
        store := map[];
      }
    }

    /** Deletes every key a cursor loop of `SCAN ... MATCH pattern` hands
        back, one batch at a time, and reports the number of deletions
        issued; `steps` are the server's answers to the loop's SCAN calls.
        A failed SCAN reports 0 but keeps the batches already deleted. */
    method DelPattern(pattern: string, now: int, steps: seq<ScanReply>) returns (removed: nat)
      requires IsScanRun(steps)
      modifies this`store
      ensures !up ==> removed == 0 && store == old(store)
      ensures up ==> store == Remove(old(store), Visited(steps))
      ensures up ==> removed == if Completed(steps) then BatchTotal(steps) else 0
    {
      if !up {
        return 0;
      }
      var cursor := "0";
      var total: nat := 0;
      var i := 0;
      while i == 0 || cursor != "0"
        invariant 0 <= i <= |steps|
        invariant i > 0 ==> steps[i - 1].Batch? && cursor == steps[i - 1].cursor
        invariant store == Remove(old(store), Visited(steps[..i]))
        invariant total == BatchTotal(steps[..i])
        decreases |steps| - i
      {
        var reply := steps[i];
        assert steps[..i + 1][..i] == steps[..i];
        if reply.ScanFailed? {
          assert steps[..i + 1] == steps;
          return 0;
        }
        cursor := reply.cursor;
        var batch := BatchKeys(reply);
        RemoveTwice(old(store), Visited(steps[..i]), batch);
        if |reply.keys| > 0 {
          store := Remove(store, batch);
          total := total + |reply.keys|;
        } else {
          assert batch == {};
          RemoveNothing(store);
        }
        i := i + 1;
      }
      assert steps[..i] == steps;
      removed := total;
    }
  }
}
