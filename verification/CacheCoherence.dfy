/** Reads and writes of many databases racing through the router. A database's content is its version;
    `acked` is the newest version whose write the router has answered. */
module CacheCoherence {
  import opened Prelude
  import opened OrderedMap
  import opened ReadCache
  import opened RouterCaches

  datatype WriteKind = PreInvalidated | Delayed | Remote

  datatype Request =
    | Reading(db: string, key: string, token: Option<Token>, floor: nat, executed: Option<nat>)
    | Writing(db: string, kind: WriteKind, changed: bool, top: nat)

  /** An answered read: the version it was computed at, and what had been acknowledged when it began. */
  datatype Served = Served(asOf: nat, floor: nat)

  datatype State = State(
    router: Router,
    now: int,
    version: map<string, nat>,
    acked: map<string, nat>,
    requests: map<nat, Request>,
    served: seq<Served>
  )

  datatype Event =
    | Tick(ms: nat)
    | StartRead(id: nat, db: string, key: string)
    | StartUncachedRead(id: nat, db: string, key: string, remote: bool)
    | ExecuteRead(id: nat)
    | EndRead(id: nat, length: nat)
    | StartWrite(id: nat, db: string, kind: WriteKind)
    | ExecuteWrite(id: nat, changes: bool)
    | EndWrite(id: nat, ok: bool)
    | Fail(id: nat)
    | ForeignWrite(db: string)

  function At(m: map<string, nat>, db: string): nat {
    if db in m then m[db] else 0
  }

  function Max(a: nat, b: nat): nat {
    if a >= b then a else b
  }

  function StartReadStep(c: Config, s: State, id: nat, db: string, key: string): State {
    if id in s.requests then s
    else
      var (router, read) := BeginRouterRead(c, s.router, s.now, db, key);
      match read
      case Hit(payload) => s.(router := router, served := s.served + [Served(payload.asOf, At(s.acked, db))])
      case Miss(token) =>
        s.(router := router, requests := s.requests[id := Reading(db, key, Some(token), At(s.acked, db), None)])
      case Bypass => s.(router := router, requests := s.requests[id := Reading(db, key, None, At(s.acked, db), None)])
  }

  function EndReadStep(c: Config, s: State, id: nat, length: nat): State {
    if id !in s.requests || !s.requests[id].Reading? || s.requests[id].executed.None? then s
    else
      var r := s.requests[id];
      var asOf := r.executed.value;
      var t := s.(requests := s.requests - {id}, served := s.served + [Served(asOf, r.floor)]);
      if r.token.None? then t
      else t.(router := FinishRouterRead(c, s.router, r.db, r.token.value, r.key, Payload(length, asOf)).0)
  }

  function StartWriteStep(s: State, id: nat, db: string, kind: WriteKind): State {
    if id in s.requests then s
    else s.(
      requests := s.requests[id := Writing(db, kind, false, 0)],
      router := match kind
        case PreInvalidated => InvalidateDb(s.router, db)
        case Remote => Forget(s.router, db)
        case Delayed => s.router)
  }

  function ExecuteWriteStep(s: State, id: nat, changes: bool): State {
    if id !in s.requests || !s.requests[id].Writing? || !changes then s
    else
      var w := s.requests[id];
      var v := At(s.version, w.db) + 1;
      s.(version := s.version[w.db := v], requests := s.requests[id := w.(changed := true, top := v)])
  }

  /** handleQuery's success, error and finally paths, then the answer to the client. */
  function EndWriteStep(s: State, id: nat, ok: bool): State {
    if id !in s.requests || !s.requests[id].Writing? then s
    else
      var w := s.requests[id];
      var pre := w.kind.PreInvalidated?;
      var r1 := if !pre && (w.changed || !ok) then InvalidateDb(s.router, w.db) else s.router;
      var r2 := if pre then InvalidateDb(r1, w.db) else r1;
      s.(router := r2, requests := s.requests - {id},
         acked := s.acked[w.db := Max(At(s.acked, w.db), w.top)])
  }

  function Step(c: Config, s: State, e: Event): State {
    match e
    case Tick(ms) => s.(now := s.now + ms)
    case StartRead(id, db, key) => StartReadStep(c, s, id, db, key)
    case StartUncachedRead(id, db, key, remote) =>
      if id in s.requests then s
      else s.(router := if remote then Forget(s.router, db) else s.router,
              requests := s.requests[id := Reading(db, key, None, At(s.acked, db), None)])
    case ExecuteRead(id) =>
      if id !in s.requests || !s.requests[id].Reading? then s
      else s.(requests := s.requests[id := s.requests[id].(executed := Some(At(s.version, s.requests[id].db)))])
    case EndRead(id, length) => EndReadStep(c, s, id, length)
    case StartWrite(id, db, kind) => StartWriteStep(s, id, db, kind)
    case ExecuteWrite(id, changes) => ExecuteWriteStep(s, id, changes)
    case EndWrite(id, ok) => EndWriteStep(s, id, ok)
    case Fail(id) => if id in s.requests && s.requests[id].Reading? then s.(requests := s.requests - {id}) else s
    case ForeignWrite(db) => s.(version := s.version[db := At(s.version, db) + 1])
  }

  function Run(c: Config, s: State, es: seq<Event>): State
    decreases |es|
  {
    if es == [] then s else Run(c, Step(c, s, es[0]), es[1..])
  }

  // ---- How the router's steps change one database's cache ----

  /** Same epoch and version, no new entries; or gone. */
  ghost predicate Shrunk(before: Option<Cache>, after: Option<Cache>) {
    after.Some? ==>
      && before.Some? && after.value.epoch == before.value.epoch && after.value.version == before.value.version
      && Within(after.value.entries, before.value.entries)
  }

  lemma ShrunkWithin(a: seq<(string, Cache)>, b: seq<(string, Cache)>, k: string)
    requires Within(a, b) && Distinct(b)
    ensures Shrunk(Find(b, k), Find(a, k))
  {
    FindWithin(a, b, k);
  }

  lemma BeginShrinks(c: Config, r: Router, now: int, db: string, key: string, k: string)
    requires RouterOk(c, r)
    ensures var after := BeginRouterRead(c, r, now, db, key).0;
      && after.nextEpoch >= r.nextEpoch
      && (Shrunk(Find(r.caches, k), Find(after.caches, k))
          || (k == db && Find(r.caches, db).None? && Find(after.caches, k) == Some(NewCache(r.nextEpoch))
              && after.nextEpoch > r.nextEpoch))
  {
    match Find(r.caches, db)
    case None =>
      var named := r.(nextEpoch := r.nextEpoch + 1);
      assert CachesOk(c, named.caches, named.nextEpoch) by {
        forall i | 0 <= i < |r.caches| ensures CacheOk(c, r.caches[i].1, named.nextEpoch) {
          assert CacheOk(c, r.caches[i].1, r.nextEpoch);
        }
      }
      MakeRoomOk(c, named);
      ShrunkWithin(MakeRoom(named).caches, r.caches, k);
      FindAppended(MakeRoom(named).caches, db, NewCache(r.nextEpoch), k);
    case Some(cache) =>
      FoundOk(c, r.caches, r.nextEpoch, db);
      BeginAccounted(c, cache, now, key);
      var after := Begin(c, cache, now, key).0;
      FindPut(r.caches, db, after, k);
      ReplacedLast(r.caches, db, after, CacheBytes);
      FindAppended(Remove(r.caches, db), db, after, k);
      if k != db { FindRemoved(r.caches, db, k); }
  }

  lemma InvalidateEffect(r: Router, db: string, k: string)
    ensures var after := InvalidateDb(r, db);
      && after.nextEpoch == r.nextEpoch
      && Find(after.caches, k) == if k == db && Find(r.caches, k).Some? then Some(Invalidate(Find(r.caches, k).value))
                                  else Find(r.caches, k)
  {
    if Find(r.caches, db).Some? { FindPut(r.caches, db, Invalidate(Find(r.caches, db).value), k); }
  }

  lemma ForgetShrinks(c: Config, r: Router, db: string, k: string)
    requires RouterOk(c, r)
    ensures Shrunk(Find(r.caches, k), Find(Forget(r, db).caches, k)) && Forget(r, db).nextEpoch == r.nextEpoch
  {
    RemovedWithin(r.caches, db);
    ShrunkWithin(Remove(r.caches, db), r.caches, k);
  }

  /** The database's cache after a store: same epoch and version, old entries and the new payload. */
  ghost predicate Grown(was: Option<Cache>, now: Option<Cache>, token: Token, payload: Payload) {
    && was.Some? && now.Some? && Current(was.value, token)
    && now.value.epoch == was.value.epoch && now.value.version == was.value.version
    && forall i :: 0 <= i < |now.value.entries| ==>
         now.value.entries[i] in was.value.entries || now.value.entries[i].1.payload == payload
  }

  lemma PlacedFinds(c: Config, r: Router, db: string, kept: Cache, k: string)
    requires RouterOk(c, r) && Find(r.caches, db).Some? && CacheOk(c, kept, r.nextEpoch)
    ensures var placed := r.(caches := Remove(r.caches, db) + [(db, kept)],
                             bytes := r.bytes + kept.retained - Find(r.caches, db).value.retained);
      var found := Find(Enforce(c.maxBytes, placed).caches, k);
      found.None? || found == if k == db then Some(kept) else Find(r.caches, k)
  {
    MovedLastOk(c, r.caches, r.nextEpoch, db, kept);
    var placed := r.(caches := Remove(r.caches, db) + [(db, kept)],
                     bytes := r.bytes + kept.retained - Find(r.caches, db).value.retained);
    EnforceOk(c, placed);
    FindWithin(Enforce(c.maxBytes, placed).caches, placed.caches, k);
    ReplacedLast(r.caches, db, kept, CacheBytes);
    FindAppended(Remove(r.caches, db), db, kept, k);
    if k != db { FindRemoved(r.caches, db, k); }
  }

  lemma {:induction false} EnforceKeepsEpochs(maxBytes: nat, r: Router)
    ensures Enforce(maxBytes, r).nextEpoch == r.nextEpoch
    decreases |r.caches|
  {
    if r.caches != [] && r.bytes > maxBytes { EnforceKeepsEpochs(maxBytes, DropOldest(r)); }
  }

  lemma FinishEffect(c: Config, r: Router, db: string, token: Token, key: string, payload: Payload, k: string)
    requires RouterOk(c, r) && c.maxEntries >= 1
    ensures var after := FinishRouterRead(c, r, db, token, key, payload).0;
      var was, now := Find(r.caches, k), Find(after.caches, k);
      after.nextEpoch == r.nextEpoch && (Shrunk(was, now) || (k == db && Grown(was, now, token, payload)))
  {
    if Find(r.caches, db).Some? {
      var cache := Find(r.caches, db).value;
      FoundOk(c, r.caches, r.nextEpoch, db);
      FinishAccounted(c, cache, token, key, payload);
      var (kept, stored) := Finish(c, cache, token, key, payload);
      if stored {
        PlacedFinds(c, r, db, kept, k);
        EnforceKeepsEpochs(c.maxBytes, r.(caches := Remove(r.caches, db) + [(db, kept)],
                                          bytes := r.bytes + kept.retained - cache.retained));
      }
    }
  }

  // ---- Coherence ----

  ghost predicate EntriesSince(cache: Cache, floor: nat) {
    forall i :: 0 <= i < |cache.entries| ==> cache.entries[i].1.payload.asOf >= floor
  }

  /** Everything stored for a database was computed at or after its newest acknowledged write. */
  ghost predicate CachesSince(s: State) {
    forall k :: Find(s.router.caches, k).Some? ==> EntriesSince(Find(s.router.caches, k).value, At(s.acked, k))
  }

  /** A token that could still store its result belongs to a read no acknowledged write has overtaken. */
  predicate TokenOk(router: Router, acked: nat, db: string, token: Token, executed: Option<nat>) {
    var cache := Find(router.caches, db);
    && token.epoch < router.nextEpoch
    && (cache.Some? && cache.value.epoch == token.epoch ==> token.version <= cache.value.version)
    && (cache.Some? && Current(cache.value, token) && executed.Some? ==> executed.value >= acked)
  }

  predicate RequestOk(s: State, r: Request) {
    match r
    case Reading(db, key, token, floor, executed) =>
      && floor <= At(s.acked, db)
      && (executed.Some? ==> floor <= executed.value)
      && (token.Some? ==> TokenOk(s.router, At(s.acked, db), db, token.value, executed))
    case Writing(db, kind, changed, top) => top <= At(s.version, db) && (!changed ==> top == 0)
  }

  ghost predicate Requests(s: State) {
    forall id :: id in s.requests ==> RequestOk(s, s.requests[id])
  }

  predicate AckedIsReal(s: State) {
    forall k :: k in s.acked ==> s.acked[k] <= At(s.version, k)
  }

  predicate ServedFresh(served: seq<Served>) {
    forall i :: 0 <= i < |served| ==> served[i].asOf >= served[i].floor
  }

  ghost predicate Coherent(c: Config, s: State) {
    RouterOk(c, s.router) && CachesSince(s) && Requests(s) && AckedIsReal(s) && ServedFresh(s.served)
  }

  /** A cache keeps its epoch and its version grows, or it is gone, or it is a new one. */
  predicate Tame(r: Router, r': Router, k: string) {
    var was, now := Find(r.caches, k), Find(r'.caches, k);
    && r.nextEpoch <= r'.nextEpoch
    && (now.Some? ==>
          || (was.Some? && now.value.epoch == was.value.epoch && was.value.version <= now.value.version)
          || r.nextEpoch <= now.value.epoch)
  }

  /** No token issued so far can store into this cache any more. */
  predicate Bumped(r: Router, r': Router, k: string) {
    var was, now := Find(r.caches, k), Find(r'.caches, k);
    now.Some? ==> was.Some? && now.value.epoch == was.value.epoch && was.value.version < now.value.version
  }

  lemma RequestKept(s: State, t: State, r: Request)
    requires RequestOk(s, r)
    requires r.Reading? ==> Tame(s.router, t.router, r.db)
    requires At(s.acked, r.db) <= At(t.acked, r.db) && At(s.version, r.db) <= At(t.version, r.db)
    requires r.Reading? ==> At(s.acked, r.db) == At(t.acked, r.db) || Bumped(s.router, t.router, r.db)
    ensures RequestOk(t, r)
  {
  }

  /** Steps that neither acknowledge nor execute: entries only go, tokens only age. */
  ghost predicate Calm(s: State, t: State) {
    && t.acked == s.acked && t.version == s.version
    && (forall k :: Shrunk(Find(s.router.caches, k), Find(t.router.caches, k))
          || (Find(t.router.caches, k).Some? && Find(t.router.caches, k).value.entries == []))
    && (forall k :: Tame(s.router, t.router, k))
  }

  lemma CalmCaches(s: State, t: State)
    requires CachesSince(s) && Calm(s, t)
    ensures CachesSince(t)
  {
    forall k | Find(t.router.caches, k).Some?
      ensures EntriesSince(Find(t.router.caches, k).value, At(t.acked, k))
    {
      if Shrunk(Find(s.router.caches, k), Find(t.router.caches, k)) {
        var was, now := Find(s.router.caches, k).value, Find(t.router.caches, k).value;
        assert EntriesSince(was, At(s.acked, k));
        forall i | 0 <= i < |now.entries| ensures now.entries[i].1.payload.asOf >= At(s.acked, k) {
          assert now.entries[i] in was.entries;
        }
      }
    }
  }

  lemma BeginCalm(c: Config, s: State, db: string, key: string)
    requires RouterOk(c, s.router)
    ensures Calm(s, s.(router := BeginRouterRead(c, s.router, s.now, db, key).0))
  {
    forall k ensures
      && (Shrunk(Find(s.router.caches, k), Find(BeginRouterRead(c, s.router, s.now, db, key).0.caches, k))
          || Find(BeginRouterRead(c, s.router, s.now, db, key).0.caches, k) == Some(NewCache(s.router.nextEpoch)))
      && Tame(s.router, BeginRouterRead(c, s.router, s.now, db, key).0, k)
    {
      BeginShrinks(c, s.router, s.now, db, key, k);
    }
  }

  lemma InvalidateCalm(s: State, db: string)
    ensures Calm(s, s.(router := InvalidateDb(s.router, db)))
    ensures Bumped(s.router, InvalidateDb(s.router, db), db)
  {
    forall k ensures
      && Find(InvalidateDb(s.router, db).caches, k) ==
           (if k == db && Find(s.router.caches, k).Some? then Some(Invalidate(Find(s.router.caches, k).value))
            else Find(s.router.caches, k))
      && Tame(s.router, InvalidateDb(s.router, db), k)
    {
      InvalidateEffect(s.router, db, k);
    }
  }

  lemma ForgetCalm(c: Config, s: State, db: string)
    requires RouterOk(c, s.router)
    ensures Calm(s, s.(router := Forget(s.router, db)))
  {
    forall k ensures Shrunk(Find(s.router.caches, k), Find(Forget(s.router, db).caches, k))
                     && Tame(s.router, Forget(s.router, db), k)
    {
      ForgetShrinks(c, s.router, db, k);
    }
  }

  /** The requests other than `id` across a calm step. */
  lemma OthersKept(s: State, t: State, id: nat)
    requires Requests(s) && Calm(s, t) && forall k :: k in t.requests && k != id ==>
      k in s.requests && t.requests[k] == s.requests[k]
    ensures forall k :: k in t.requests && k != id ==> RequestOk(t, t.requests[k])
  {
    forall k | k in t.requests && k != id ensures RequestOk(t, t.requests[k]) {
      assert Tame(s.router, t.router, s.requests[k].db);
      RequestKept(s, t, s.requests[k]);
    }
  }

  lemma StartReadKept(c: Config, s: State, id: nat, db: string, key: string)
    requires Coherent(c, s)
    ensures Coherent(c, StartReadStep(c, s, id, db, key))
  {
    if id !in s.requests {
      var t := StartReadStep(c, s, id, db, key);
      BeginRouterReadOk(c, s.router, s.now, db, key);
      BeginCalm(c, s, db, key);
      CalmCaches(s, t);
      OthersKept(s, t, id);
      BeginRead(c, s, db, key);
    }
  }

  /** What a read begins with: a hit since the newest acknowledgement, or a usable token. */
  lemma BeginRead(c: Config, s: State, db: string, key: string)
    requires RouterOk(c, s.router) && CachesSince(s)
    ensures var (router, read) := BeginRouterRead(c, s.router, s.now, db, key);
      && (read.Hit? ==> read.payload.asOf >= At(s.acked, db))
      && (read.Miss? ==> TokenOk(router, At(s.acked, db), db, read.token, None))
  {
    match Find(s.router.caches, db)
    case None => NewToken(c, s.router, s.now, db, key);
    case Some(cache) =>
      FoundOk(c, s.router.caches, s.router.nextEpoch, db);
      var (after, read) := Begin(c, cache, s.now, key);
      if read.Hit? {
        HitIsStored(c, cache, s.now, key);
        FindIs(cache.entries, key);
        assert EntriesSince(cache, At(s.acked, db));
      } else if read.Miss? {
        BeginAccounted(c, cache, s.now, key);
        ReplacedLast(s.router.caches, db, after, CacheBytes);
      }
  }

  lemma NewToken(c: Config, r: Router, now: int, db: string, key: string)
    requires RouterOk(c, r) && Find(r.caches, db).None?
    ensures var (router, read) := BeginNew(c, r, now, db, key);
      !read.Hit? && (read.Miss? ==> read.token.epoch < router.nextEpoch && read.token.version == 0)
  {
    var named := r.(nextEpoch := r.nextEpoch + 1);
    assert CachesOk(c, named.caches, named.nextEpoch) by {
      forall i | 0 <= i < |r.caches| ensures CacheOk(c, r.caches[i].1, named.nextEpoch) {
        assert CacheOk(c, r.caches[i].1, r.nextEpoch);
      }
    }
    MakeRoomOk(c, named);
  }

  lemma FinishTame(c: Config, s: State, db: string, token: Token, key: string, payload: Payload)
    requires RouterOk(c, s.router) && c.maxEntries >= 1
    ensures forall k :: Tame(s.router, FinishRouterRead(c, s.router, db, token, key, payload).0, k)
  {
    forall k ensures Tame(s.router, FinishRouterRead(c, s.router, db, token, key, payload).0, k) {
      FinishEffect(c, s.router, db, token, key, payload, k);
    }
  }

  /** A stored result is no older than the newest acknowledged write: its token was still current. */
  lemma FinishCaches(c: Config, s: State, db: string, token: Token, key: string, payload: Payload)
    requires RouterOk(c, s.router) && c.maxEntries >= 1 && CachesSince(s)
    requires TokenOk(s.router, At(s.acked, db), db, token, Some(payload.asOf))
    ensures CachesSince(s.(router := FinishRouterRead(c, s.router, db, token, key, payload).0))
  {
    var t := s.(router := FinishRouterRead(c, s.router, db, token, key, payload).0);
    forall k | Find(t.router.caches, k).Some?
      ensures EntriesSince(Find(t.router.caches, k).value, At(t.acked, k))
    {
      FinishEffect(c, s.router, db, token, key, payload, k);
      var was, now := Find(s.router.caches, k).value, Find(t.router.caches, k).value;
      assert EntriesSince(was, At(s.acked, k));
      forall i | 0 <= i < |now.entries| ensures now.entries[i].1.payload.asOf >= At(s.acked, k) {
        assert now.entries[i] in was.entries || now.entries[i].1.payload == payload;
      }
    }
  }

  lemma EndReadKept(c: Config, s: State, id: nat, length: nat)
    requires Coherent(c, s) && c.maxEntries >= 1
    ensures Coherent(c, EndReadStep(c, s, id, length))
  {
    if id in s.requests && s.requests[id].Reading? && s.requests[id].executed.Some? {
      var r, t := s.requests[id], EndReadStep(c, s, id, length);
      assert RequestOk(s, r);
      if r.token.Some? {
        var payload := Payload(length, r.executed.value);
        FinishRouterReadOk(c, s.router, r.db, r.token.value, r.key, payload);
        FinishTame(c, s, r.db, r.token.value, r.key, payload);
        FinishCaches(c, s, r.db, r.token.value, r.key, payload);
        assert CachesSince(t);
      }
      forall k | k in t.requests ensures RequestOk(t, t.requests[k]) {
        assert Tame(s.router, t.router, s.requests[k].db);
        RequestKept(s, t, s.requests[k]);
      }
    }
  }

  lemma StartWriteKept(c: Config, s: State, id: nat, db: string, kind: WriteKind)
    requires Coherent(c, s)
    ensures Coherent(c, StartWriteStep(s, id, db, kind))
  {
    if id !in s.requests {
      var t := StartWriteStep(s, id, db, kind);
      InvalidateDbOk(c, s.router, db);
      ForgetOk(c, s.router, db);
      InvalidateCalm(s, db);
      ForgetCalm(c, s, db);
      assert Calm(s, t);
      CalmCaches(s, t);
      OthersKept(s, t, id);
    }
  }

  lemma ExecuteWriteKept(c: Config, s: State, id: nat, changes: bool)
    requires Coherent(c, s)
    ensures Coherent(c, ExecuteWriteStep(s, id, changes))
  {
    var t := ExecuteWriteStep(s, id, changes);
    forall k | k in t.requests ensures RequestOk(t, t.requests[k]) {
      assert RequestOk(s, s.requests[k]);
      if k != id { RequestKept(s, t, s.requests[k]); }
    }
  }

  /** An acknowledgement that raises `acked` has just emptied the cache and aged its tokens. */
  lemma EndWriteKept(c: Config, s: State, id: nat, ok: bool)
    requires Coherent(c, s)
    ensures Coherent(c, EndWriteStep(s, id, ok))
  {
    hide RouterOk, ServedFresh, Invalidate;
    if id in s.requests && s.requests[id].Writing? {
      var w, t := s.requests[id], EndWriteStep(s, id, ok);
      assert RequestOk(s, w);
      InvalidateDbOk(c, s.router, w.db);
      InvalidateCalm(s, w.db);
      InvalidateEffect(s.router, w.db, w.db);
      var m := s.(router := t.router);
      CalmCaches(s, m);
      forall k | Find(t.router.caches, k).Some?
        ensures EntriesSince(Find(t.router.caches, k).value, At(t.acked, k))
      {
        assert EntriesSince(Find(m.router.caches, k).value, At(m.acked, k));
      }
      forall k | k in t.requests ensures RequestOk(t, t.requests[k]) {
        assert Tame(s.router, t.router, s.requests[k].db);
        RequestKept(s, t, s.requests[k]);
      }
    }
  }

  lemma UncachedReadKept(c: Config, s: State, id: nat, db: string, key: string, remote: bool)
    requires Coherent(c, s)
    ensures Coherent(c, Step(c, s, StartUncachedRead(id, db, key, remote)))
  {
    if id !in s.requests {
      var t := Step(c, s, StartUncachedRead(id, db, key, remote));
      ForgetOk(c, s.router, db);
      ForgetCalm(c, s, db);
      assert Calm(s, t);
      CalmCaches(s, t);
      OthersKept(s, t, id);
    }
  }

  lemma ExecuteReadKept(c: Config, s: State, id: nat)
    requires Coherent(c, s)
    ensures Coherent(c, Step(c, s, ExecuteRead(id)))
  {
    hide RouterOk, ServedFresh, EntriesSince;
    var t := Step(c, s, ExecuteRead(id));
    forall k | k in t.requests ensures RequestOk(t, t.requests[k]) {
      assert RequestOk(s, s.requests[k]);
      assert s.requests[k].db in s.acked ==> s.acked[s.requests[k].db] <= At(s.version, s.requests[k].db);
    }
  }

  lemma CoherentKept(c: Config, s: State, e: Event)
    requires Coherent(c, s) && c.maxEntries >= 1
    ensures Coherent(c, Step(c, s, e))
  {
    match e
    case StartRead(id, db, key) => StartReadKept(c, s, id, db, key);
    case StartUncachedRead(id, db, key, remote) => UncachedReadKept(c, s, id, db, key, remote);
    case ExecuteRead(id) => ExecuteReadKept(c, s, id);
    case EndRead(id, length) => EndReadKept(c, s, id, length);
    case StartWrite(id, db, kind) => StartWriteKept(c, s, id, db, kind);
    case ExecuteWrite(id, changes) => ExecuteWriteKept(c, s, id, changes);
    case EndWrite(id, ok) => EndWriteKept(c, s, id, ok);
    case ForeignWrite(db) =>
      var t := Step(c, s, e);
      forall k | k in t.requests ensures RequestOk(t, t.requests[k]) { RequestKept(s, t, s.requests[k]); }
    case _ =>
      var t := Step(c, s, e);
      forall k | k in t.requests ensures RequestOk(t, t.requests[k]) { assert RequestOk(s, s.requests[k]); }
  }

  function Idle(): State {
    State(Router([], 0, 0), 0, map[], map[], map[], [])
  }

  lemma {:induction false} CoherentAlong(c: Config, s: State, es: seq<Event>)
    requires Coherent(c, s) && c.maxEntries >= 1
    ensures Coherent(c, Run(c, s, es))
    decreases |es|
  {
    if es != [] {
      CoherentKept(c, s, es[0]);
      CoherentAlong(c, Step(c, s, es[0]), es[1..]);
    }
  }

  /** Cache coherence: on every run, every answered read, hit or miss, was computed at or after the
      newest write the router had acknowledged when the read began, and both levels of the cache add up
      and stay within their bounds. */
  lemma NoStaleRead(c: Config, es: seq<Event>)
    requires c.maxEntries >= 1
    ensures var t := Run(c, Idle(), es);
      && (forall i :: 0 <= i < |t.served| ==> t.served[i].asOf >= t.served[i].floor)
      && RouterOk(c, t.router)
  {
    CoherentAlong(c, Idle(), es);
  }

  lemma FoundUnexpired(entries: seq<(string, Entry)>, now: int, key: string)
    requires Distinct(entries) && Find(entries, key).Some? && Find(entries, key).value.expiresAt > now
    ensures Find(Unexpired(entries, now), key) == Find(entries, key)
  {
    FindIs(entries, key);
    UnexpiredWithin(entries, now);
    var i :| 0 <= i < |entries| && entries[i] == (key, Find(entries, key).value);
    var j :| 0 <= j < |Unexpired(entries, now)| && Unexpired(entries, now)[j] == entries[i];
    FindUnique(Unexpired(entries, now), key, j);
  }

  /** A stored result is served to the next read of its key until it expires. */
  lemma StoredReadHits(c: Config, r: Router, db: string, token: Token, key: string, payload: Payload, now: int)
    requires RouterOk(c, r) && c.maxEntries >= 1 && now < token.expiresAt
    requires FinishRouterRead(c, r, db, token, key, payload).1
    ensures BeginRouterRead(c, FinishRouterRead(c, r, db, token, key, payload).0, now, db, key).1 == Hit(payload)
  {
    FinishRouterReadOk(c, r, db, token, key, payload);
    var after := FinishRouterRead(c, r, db, token, key, payload).0;
    FoundOk(c, after.caches, after.nextEpoch, db);
    FoundUnexpired(Find(after.caches, db).value.entries, now, key);
  }

  /** After an invalidation nothing is served until a read begun later stores again. */
  lemma InvalidatedReadMisses(c: Config, r: Router, db: string, key: string, now: int, token: Token, payload: Payload)
    requires RouterOk(c, r) && Find(r.caches, db).Some? && token.version <= Find(r.caches, db).value.version
    ensures !BeginRouterRead(c, InvalidateDb(r, db), now, db, key).1.Hit?
    ensures !FinishRouterRead(c, InvalidateDb(r, db), db, token, key, payload).1
  {
    InvalidateEffect(r, db, db);
  }
}
