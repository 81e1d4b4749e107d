/** The router's module state, updated in place: the cache map, its byte total and the two loops that
    keep them within bounds. A cache object is held by value; the map is the only way to reach it. */
module RouterState {
  import opened Prelude
  import opened OrderedMap
  import opened ReadCache
  import opened RouterCaches

  class ReadCaches {
    const config: Config
    var routerReadCaches: seq<(string, Cache)>
    var routerReadCacheBytes: int
    var nextEpoch: nat

    constructor (c: Config)
      ensures config == c && View() == Router([], 0, 0) && Valid()
    {
      config := c;
      routerReadCaches, routerReadCacheBytes, nextEpoch := [], 0, 0;
    }

    ghost function View(): Router
      reads this
    {
      Router(routerReadCaches, routerReadCacheBytes, nextEpoch)
    }

    ghost predicate Valid()
      reads this
    {
      RouterOk(config, View())
    }

    method RemoveRouterReadCache(db: string) returns (found: bool)
      requires Valid()
      modifies this
      ensures Valid() && View() == Forget(old(View()), db)
      ensures found <==> Find(old(routerReadCaches), db).Some?
    {
      ForgetOk(config, View(), db);
      var i := Locate(routerReadCaches, db);
      if i == |routerReadCaches| { return false; }
      routerReadCacheBytes := routerReadCacheBytes - routerReadCaches[i].1.retained;
      routerReadCaches := routerReadCaches[..i] + routerReadCaches[i + 1..];
      found := true;
    }

    method EnforceByteBudget(maxBytes: nat)
      modifies this
      ensures View() == Enforce(maxBytes, old(View()))
    {
      while routerReadCacheBytes > maxBytes
        invariant Enforce(maxBytes, View()) == Enforce(maxBytes, old(View()))
        decreases |routerReadCaches|
      {
        if routerReadCaches == [] { break; }
        routerReadCacheBytes := routerReadCacheBytes - routerReadCaches[0].1.retained;
        routerReadCaches := routerReadCaches[1..];
      }
    }

    method MakeRoomForOne()
      modifies this
      ensures View() == MakeRoom(old(View()))
    {
      while |routerReadCaches| >= MAX_DBS
        invariant MakeRoom(View()) == MakeRoom(old(View()))
        decreases |routerReadCaches|
      {
        routerReadCacheBytes := routerReadCacheBytes - routerReadCaches[0].1.retained;
        routerReadCaches := routerReadCaches[1..];
      }
    }

    method InvalidateRouterReadCache(db: string)
      requires Valid()
      modifies this
      ensures Valid() && View() == InvalidateDb(old(View()), db)
    {
      InvalidateDbOk(config, View(), db);
      var i := Locate(routerReadCaches, db);
      if i == |routerReadCaches| { return; }
      ghost var k := PutAt(routerReadCaches, db, Invalidate(routerReadCaches[i].1));
      routerReadCacheBytes := routerReadCacheBytes - routerReadCaches[i].1.retained;
      routerReadCaches := routerReadCaches[i := (db, Invalidate(routerReadCaches[i].1))];
    }

    method BeginRead(now: int, db: string, key: string) returns (read: Read)
      requires Valid()
      modifies this
      ensures Valid() && (View(), read) == BeginRouterRead(config, old(View()), now, db, key)
    {
      BeginRouterReadOk(config, View(), now, db, key);
      var i := Locate(routerReadCaches, db);
      if i < |routerReadCaches| {
        var cache := routerReadCaches[i].1;
        var (after, outcome) := Begin(config, cache, now, key);
        read := outcome;
        routerReadCacheBytes := routerReadCacheBytes + after.retained - cache.retained;
        if read.Bypass? {
          ghost var k := PutAt(routerReadCaches, db, after);
          routerReadCaches := routerReadCaches[i := (db, after)];
        } else {
          routerReadCaches := routerReadCaches[..i] + routerReadCaches[i + 1..] + [(db, after)];
        }
        return;
      }
      var (candidate, outcome) := Begin(config, NewCache(nextEpoch), now, key);
      read := outcome;
      nextEpoch := nextEpoch + 1;
      if !read.Bypass? {
        MakeRoomForOne();
        routerReadCaches := routerReadCaches + [(db, candidate)];
      }
    }

    method FinishRead(db: string, token: Token, key: string, payload: Payload) returns (stored: bool)
      requires Valid() && config.maxEntries >= 1
      modifies this
      ensures Valid() && (View(), stored) == FinishRouterRead(config, old(View()), db, token, key, payload)
    {
      FinishRouterReadOk(config, View(), db, token, key, payload);
      var i := Locate(routerReadCaches, db);
      if i == |routerReadCaches| { return false; }
      var cache := routerReadCaches[i].1;
      var (after, kept) := Finish(config, cache, token, key, payload);
      if !kept { return false; }
      routerReadCacheBytes := routerReadCacheBytes + after.retained - cache.retained;
      routerReadCaches := routerReadCaches[..i] + routerReadCaches[i + 1..] + [(db, after)];
      EnforceByteBudget(config.maxBytes);
      stored := true;
    }
  }
}
