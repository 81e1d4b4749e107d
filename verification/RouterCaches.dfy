/** The router's read caches: one cache per database in least-recently-used order, a shared byte
    budget, and the bound on the number of databases. */
module RouterCaches {
  import opened Prelude
  import opened OrderedMap
  import opened ReadCache

  const MAX_DBS: nat := 10_000

  /** `nextEpoch` numbers the Symbols that name cache epochs. */
  datatype Router = Router(caches: seq<(string, Cache)>, bytes: int, nextEpoch: nat)

  function CacheBytes(c: Cache): int {
    c.retained
  }

  function DropOldest(r: Router): Router
    requires r.caches != []
  {
    r.(caches := r.caches[1..], bytes := r.bytes - r.caches[0].1.retained)
  }

  function MakeRoom(r: Router): Router
    decreases |r.caches|
  {
    if |r.caches| >= MAX_DBS then MakeRoom(DropOldest(r)) else r
  }

  function Enforce(maxBytes: nat, r: Router): Router
    decreases |r.caches|
  {
    if r.caches != [] && r.bytes > maxBytes then Enforce(maxBytes, DropOldest(r)) else r
  }

  function Forget(r: Router, db: string): Router {
    match Find(r.caches, db)
    case None => r
    case Some(cache) => r.(caches := Remove(r.caches, db), bytes := r.bytes - cache.retained)
  }

  function InvalidateDb(r: Router, db: string): Router {
    match Find(r.caches, db)
    case None => r
    case Some(cache) => r.(caches := Put(r.caches, db, Invalidate(cache)), bytes := r.bytes - cache.retained)
  }

  function BeginExisting(c: Config, r: Router, cache: Cache, now: int, db: string, key: string): (Router, Read) {
    var (after, read) := Begin(c, cache, now, key);
    var bytes := r.bytes + after.retained - cache.retained;
    (r.(bytes := bytes,
        caches := if read.Bypass? then Put(r.caches, db, after) else Remove(r.caches, db) + [(db, after)]),
     read)
  }

  function BeginNew(c: Config, r: Router, now: int, db: string, key: string): (Router, Read) {
    var (after, read) := Begin(c, NewCache(r.nextEpoch), now, key);
    var named := r.(nextEpoch := r.nextEpoch + 1);
    if read.Bypass? then (named, read)
    else
      var room := MakeRoom(named);
      (room.(caches := room.caches + [(db, after)]), read)
  }

  /** The cacheable branch of beginRouterRead. */
  function BeginRouterRead(c: Config, r: Router, now: int, db: string, key: string): (Router, Read) {
    match Find(r.caches, db)
    case None => BeginNew(c, r, now, db, key)
    case Some(cache) => BeginExisting(c, r, cache, now, db, key)
  }

  /** handleQuery's store of a finished read. */
  function FinishRouterRead(c: Config, r: Router, db: string, token: Token, key: string, payload: Payload)
    : (Router, bool)
  {
    match Find(r.caches, db)
    case None => (r, false)
    case Some(cache) =>
      var (after, stored) := Finish(c, cache, token, key, payload);
      if !stored then (r, false)
      else
        var placed := r.(caches := Remove(r.caches, db) + [(db, after)],
                         bytes := r.bytes + after.retained - cache.retained);
        (Enforce(c.maxBytes, placed), true)
  }

  // ---- Accounting ----

  ghost predicate CacheOk(c: Config, cache: Cache, nextEpoch: nat) {
    && Accounted(cache) && cache.epoch < nextEpoch
    && |cache.entries| <= c.maxEntries && cache.retained <= c.maxBytes
  }

  ghost predicate CachesOk(c: Config, caches: seq<(string, Cache)>, nextEpoch: nat) {
    Distinct(caches) && forall i :: 0 <= i < |caches| ==> CacheOk(c, caches[i].1, nextEpoch)
  }

  /** Both levels add up and both levels are within their bounds. */
  ghost predicate RouterOk(c: Config, r: Router) {
    && CachesOk(c, r.caches, r.nextEpoch)
    && r.bytes == Sum(r.caches, CacheBytes) && r.bytes <= c.maxBytes && |r.caches| <= MAX_DBS
  }

  lemma FoundOk(c: Config, caches: seq<(string, Cache)>, nextEpoch: nat, db: string)
    requires CachesOk(c, caches, nextEpoch) && Find(caches, db).Some?
    ensures CacheOk(c, Find(caches, db).value, nextEpoch)
  {
    FindIs(caches, db);
  }

  lemma PutOk(c: Config, caches: seq<(string, Cache)>, nextEpoch: nat, db: string, cache: Cache)
    requires CachesOk(c, caches, nextEpoch) && Find(caches, db).Some? && CacheOk(c, cache, nextEpoch)
    ensures CachesOk(c, Put(caches, db, cache), nextEpoch) && |Put(caches, db, cache)| == |caches|
    ensures Sum(Put(caches, db, cache), CacheBytes)
              == Sum(caches, CacheBytes) + cache.retained - Find(caches, db).value.retained
  {
    var k := PutAt(caches, db, cache);
    PutSum(caches, db, cache, CacheBytes);
  }

  lemma MovedLastOk(c: Config, caches: seq<(string, Cache)>, nextEpoch: nat, db: string, cache: Cache)
    requires CachesOk(c, caches, nextEpoch) && Find(caches, db).Some? && CacheOk(c, cache, nextEpoch)
    ensures var moved := Remove(caches, db) + [(db, cache)];
      && CachesOk(c, moved, nextEpoch) && |moved| == |caches| && Last(moved) == (db, cache)
      && Sum(moved, CacheBytes) == Sum(caches, CacheBytes) + cache.retained - Find(caches, db).value.retained
  {
    ReplacedLast(caches, db, cache, CacheBytes);
    var moved := Remove(caches, db) + [(db, cache)];
    forall i | 0 <= i < |moved| ensures CacheOk(c, moved[i].1, nextEpoch) {
      assert moved[i] in caches || moved[i] == (db, cache);
    }
  }

  /** Dropping the oldest caches until the budget holds never reaches a newest cache that fits it. */
  lemma {:induction false} EnforceOk(c: Config, r: Router)
    requires CachesOk(c, r.caches, r.nextEpoch) && r.caches != [] && r.bytes == Sum(r.caches, CacheBytes)
    ensures var e := Enforce(c.maxBytes, r);
      && CachesOk(c, e.caches, e.nextEpoch) && e.nextEpoch == r.nextEpoch
      && e.caches != [] && Last(e.caches) == Last(r.caches) && |e.caches| <= |r.caches|
      && e.bytes == Sum(e.caches, CacheBytes) && e.bytes <= c.maxBytes
      && Within(e.caches, r.caches)
    decreases |r.caches|
  {
    if |r.caches| == 1 {
      assert r.caches == [r.caches[0]];
      SumOne(r.caches[0], CacheBytes);
      assert CacheOk(c, r.caches[0].1, r.nextEpoch);
    } else if r.bytes > c.maxBytes {
      assert Last(r.caches[1..]) == Last(r.caches);
      EnforceOk(c, DropOldest(r));
      var e := Enforce(c.maxBytes, r);
      forall i | 0 <= i < |e.caches| ensures e.caches[i] in r.caches { assert e.caches[i] in r.caches[1..]; }
    }
  }

  lemma {:induction false} MakeRoomOk(c: Config, r: Router)
    requires CachesOk(c, r.caches, r.nextEpoch) && r.bytes == Sum(r.caches, CacheBytes) && r.bytes <= c.maxBytes
    ensures var m := MakeRoom(r);
      && CachesOk(c, m.caches, m.nextEpoch) && m.nextEpoch == r.nextEpoch && |m.caches| < MAX_DBS
      && m.bytes == Sum(m.caches, CacheBytes) && m.bytes <= c.maxBytes
      && Within(m.caches, r.caches)
    decreases |r.caches|
  {
    if |r.caches| >= MAX_DBS {
      assert CacheOk(c, r.caches[0].1, r.nextEpoch);
      MakeRoomOk(c, DropOldest(r));
      var m := MakeRoom(r);
      forall i | 0 <= i < |m.caches| ensures m.caches[i] in r.caches { assert m.caches[i] in r.caches[1..]; }
    }
  }

  lemma InvalidateDbOk(c: Config, r: Router, db: string)
    requires RouterOk(c, r)
    ensures RouterOk(c, InvalidateDb(r, db))
  {
    if Find(r.caches, db).Some? {
      FoundOk(c, r.caches, r.nextEpoch, db);
      var cache := Find(r.caches, db).value;
      PutOk(c, r.caches, r.nextEpoch, db, Invalidate(cache));
    }
  }

  lemma ForgetOk(c: Config, r: Router, db: string)
    requires RouterOk(c, r)
    ensures RouterOk(c, Forget(r, db)) && Find(Forget(r, db).caches, db).None?
  {
    RemovedWithin(r.caches, db);
    RemovedSum(r.caches, db, CacheBytes);
    FindIs(r.caches, db);
    FindIs(Remove(r.caches, db), db);
    if Find(r.caches, db).Some? {
      FoundOk(c, r.caches, r.nextEpoch, db);
      var rest := Remove(r.caches, db);
      forall i | 0 <= i < |rest| ensures CacheOk(c, rest[i].1, r.nextEpoch) { assert rest[i] in r.caches; }
    }
  }

  lemma BeginExistingOk(c: Config, r: Router, cache: Cache, now: int, db: string, key: string)
    requires RouterOk(c, r) && Find(r.caches, db) == Some(cache)
    ensures RouterOk(c, BeginExisting(c, r, cache, now, db, key).0)
  {
    FoundOk(c, r.caches, r.nextEpoch, db);
    BeginAccounted(c, cache, now, key);
    var after := Begin(c, cache, now, key).0;
    PutOk(c, r.caches, r.nextEpoch, db, after);
    MovedLastOk(c, r.caches, r.nextEpoch, db, after);
  }

  lemma AppendOk(c: Config, r: Router, db: string, cache: Cache)
    requires RouterOk(c, r) && |r.caches| < MAX_DBS && Find(r.caches, db).None?
    requires CacheOk(c, cache, r.nextEpoch) && cache.retained == 0
    ensures RouterOk(c, r.(caches := r.caches + [(db, cache)]))
  {
    FindIs(r.caches, db);
    SumAppend(r.caches, [(db, cache)], CacheBytes);
    SumOne((db, cache), CacheBytes);
  }

  lemma BeginNewOk(c: Config, r: Router, now: int, db: string, key: string)
    requires RouterOk(c, r) && Find(r.caches, db).None?
    ensures RouterOk(c, BeginNew(c, r, now, db, key).0)
  {
    var named := r.(nextEpoch := r.nextEpoch + 1);
    assert CachesOk(c, named.caches, named.nextEpoch) by {
      forall i | 0 <= i < |r.caches| ensures CacheOk(c, r.caches[i].1, named.nextEpoch) {
        assert CacheOk(c, r.caches[i].1, r.nextEpoch);
      }
    }
    MakeRoomOk(c, named);
    FindIs(r.caches, db);
    FindIs(MakeRoom(named).caches, db);
    var after := Begin(c, NewCache(r.nextEpoch), now, key).0;
    assert after == NewCache(r.nextEpoch);
    AppendOk(c, MakeRoom(named), db, after);
  }

  /** Every read begun keeps both levels of accounting. */
  lemma BeginRouterReadOk(c: Config, r: Router, now: int, db: string, key: string)
    requires RouterOk(c, r)
    ensures RouterOk(c, BeginRouterRead(c, r, now, db, key).0)
  {
    match Find(r.caches, db)
    case None => BeginNewOk(c, r, now, db, key);
    case Some(cache) => BeginExistingOk(c, r, cache, now, db, key);
  }

  /** Two-level accounting of a store: both sums and all four bounds hold afterwards, and the entry just
      stored survives both eviction loops. */
  lemma FinishRouterReadOk(c: Config, r: Router, db: string, token: Token, key: string, payload: Payload)
    requires RouterOk(c, r) && c.maxEntries >= 1
    ensures var (after, stored) := FinishRouterRead(c, r, db, token, key, payload);
      && RouterOk(c, after)
      && (stored ==>
            && Find(after.caches, db).Some?
            && Find(Find(after.caches, db).value.entries, key)
                 == Some(Entry(token.expiresAt, payload, 2 * |key| + payload.length)))
  {
    if Find(r.caches, db).Some? {
      var cache := Find(r.caches, db).value;
      FoundOk(c, r.caches, r.nextEpoch, db);
      FinishAccounted(c, cache, token, key, payload);
      var (after, stored) := Finish(c, cache, token, key, payload);
      if stored {
        MovedLastOk(c, r.caches, r.nextEpoch, db, after);
        var placed := r.(caches := Remove(r.caches, db) + [(db, after)],
                         bytes := r.bytes + after.retained - cache.retained);
        EnforceOk(c, placed);
        var e := Enforce(c.maxBytes, placed);
        FindUnique(e.caches, db, |e.caches| - 1);
      }
    }
  }
}
