/** One database's D1 read cache: an insertion-ordered map of results with byte accounting, guarded
    by an epoch and a mutation version. A payload is its byte length and the database version it was
    computed at. */
module ReadCache {
  import opened Prelude
  import opened OrderedMap

  datatype Config = Config(ttl: nat, maxEntries: nat, maxBytes: nat)

  datatype Payload = Payload(length: nat, asOf: nat)

  datatype Entry = Entry(expiresAt: int, payload: Payload, size: nat)

  datatype Token = Token(epoch: nat, version: nat, expiresAt: int)

  /** Oldest entry first, as a JavaScript Map iterates. */
  datatype Cache = Cache(entries: seq<(string, Entry)>, retained: int, version: nat, epoch: nat)

  datatype Read = Bypass | Miss(token: Token) | Hit(payload: Payload)

  function NewCache(epoch: nat): Cache {
    Cache([], 0, 0, epoch)
  }

  function EntrySize(e: Entry): int {
    e.size
  }

  function Total(entries: seq<(string, Entry)>): (total: int)
    ensures total >= 0
  {
    if entries == [] then 0 else entries[0].1.size + Total(entries[1..])
  }

  function Unexpired(entries: seq<(string, Entry)>, now: int): seq<(string, Entry)> {
    if entries == [] then []
    else
      var kept := Unexpired(entries[..|entries| - 1], now);
      if Last(entries).1.expiresAt <= now then kept else kept + [Last(entries)]
  }

  /** Drop oldest entries until both bounds hold. */
  function Trim(c: Config, entries: seq<(string, Entry)>): seq<(string, Entry)> {
    if entries != [] && (|entries| > c.maxEntries || Total(entries) > c.maxBytes) then Trim(c, entries[1..])
    else entries
  }

  function Delete(cache: Cache, key: string): Cache {
    match Find(cache.entries, key)
    case None => cache
    case Some(e) => cache.(entries := Remove(cache.entries, key), retained := cache.retained - e.size)
  }

  function Purge(cache: Cache, now: int): Cache {
    var kept := Unexpired(cache.entries, now);
    cache.(entries := kept, retained := cache.retained - Total(cache.entries) + Total(kept))
  }

  function Begin(c: Config, cache: Cache, now: int, key: string): (Cache, Read) {
    var purged := Purge(cache, now);
    if 2 * |key| > c.maxBytes then (purged, Bypass)
    else
      match Find(purged.entries, key)
      case None => (purged, Miss(Token(purged.epoch, purged.version, now + c.ttl)))
      case Some(e) => (purged.(entries := Remove(purged.entries, key) + [(key, e)]), Hit(e.payload))
  }

  predicate Current(cache: Cache, token: Token) {
    token.epoch == cache.epoch && token.version == cache.version
  }

  function Finish(c: Config, cache: Cache, token: Token, key: string, payload: Payload): (Cache, bool) {
    var size := 2 * |key| + payload.length;
    if !Current(cache, token) || size > c.maxBytes then (cache, false)
    else
      var without := Delete(cache, key);
      var added := without.entries + [(key, Entry(token.expiresAt, payload, size))];
      var kept := Trim(c, added);
      (cache.(entries := kept, retained := without.retained + size - Total(added) + Total(kept)), true)
  }

  function Invalidate(cache: Cache): Cache {
    cache.(entries := [], retained := 0, version := cache.version + 1)
  }

  function Retire(cache: Cache, epoch: nat): Cache {
    cache.(entries := [], retained := 0, epoch := epoch)
  }

  // ---- Accounting ----

  ghost predicate Accounted(cache: Cache) {
    Distinct(cache.entries) && cache.retained == Total(cache.entries)
  }

  lemma {:induction false} TotalIsSum(entries: seq<(string, Entry)>)
    ensures Total(entries) == Sum(entries, EntrySize)
  {
    if entries != [] { TotalIsSum(entries[1..]); }
  }

  lemma TotalAppend(a: seq<(string, Entry)>, b: seq<(string, Entry)>)
    ensures Total(a + b) == Total(a) + Total(b)
  {
    TotalIsSum(a);
    TotalIsSum(b);
    TotalIsSum(a + b);
    SumAppend(a, b, EntrySize);
  }

  lemma RemovedTotal(entries: seq<(string, Entry)>, key: string)
    ensures Find(entries, key).None? ==> Remove(entries, key) == entries
    ensures Find(entries, key).Some? ==>
              Total(Remove(entries, key)) == Total(entries) - Find(entries, key).value.size
    ensures |Remove(entries, key)| == |entries| - (if Find(entries, key).Some? then 1 else 0)
  {
    RemovedSum(entries, key, EntrySize);
    TotalIsSum(entries);
    TotalIsSum(Remove(entries, key));
  }

  lemma {:induction false} UnexpiredMembers(entries: seq<(string, Entry)>, now: int, p: (string, Entry))
    ensures p in Unexpired(entries, now) <==> p in entries && p.1.expiresAt > now
  {
    if entries != [] {
      var n := |entries| - 1;
      UnexpiredMembers(entries[..n], now, p);
      assert entries == entries[..n] + [entries[n]];
    }
  }

  lemma {:induction false} UnexpiredTotal(entries: seq<(string, Entry)>, now: int)
    ensures Total(Unexpired(entries, now)) <= Total(entries) && |Unexpired(entries, now)| <= |entries|
  {
    if entries != [] {
      var n := |entries| - 1;
      UnexpiredTotal(entries[..n], now);
      assert entries == entries[..n] + [entries[n]];
      TotalAppend(entries[..n], [entries[n]]);
      TotalAppend(Unexpired(entries[..n], now), [entries[n]]);
    }
  }

  lemma {:induction false} UnexpiredDistinct(entries: seq<(string, Entry)>, now: int)
    requires Distinct(entries)
    ensures Distinct(Unexpired(entries, now))
  {
    if entries != [] {
      var n := |entries| - 1;
      UnexpiredDistinct(entries[..n], now);
      var kept := Unexpired(entries[..n], now);
      forall i | 0 <= i < |kept| ensures kept[i].0 != entries[n].0 {
        UnexpiredMembers(entries[..n], now, kept[i]);
        assert kept[i] in kept;
      }
    }
  }

  lemma UnexpiredWithin(entries: seq<(string, Entry)>, now: int)
    requires Distinct(entries)
    ensures Distinct(Unexpired(entries, now)) && Within(Unexpired(entries, now), entries)
    ensures |Unexpired(entries, now)| <= |entries|
    ensures Total(Unexpired(entries, now)) <= Total(entries)
    ensures forall i :: 0 <= i < |entries| && entries[i].1.expiresAt > now ==> entries[i] in Unexpired(entries, now)
    ensures forall i :: 0 <= i < |Unexpired(entries, now)| ==> Unexpired(entries, now)[i].1.expiresAt > now
  {
    UnexpiredDistinct(entries, now);
    UnexpiredTotal(entries, now);
    forall p: (string, Entry) ensures p in Unexpired(entries, now) <==> p in entries && p.1.expiresAt > now {
      UnexpiredMembers(entries, now, p);
    }
  }

  lemma {:induction false} Trimmed(c: Config, entries: seq<(string, Entry)>)
    requires Distinct(entries) && entries != [] && c.maxEntries >= 1 && Last(entries).1.size <= c.maxBytes
    ensures var kept := Trim(c, entries);
      && Distinct(kept) && Within(kept, entries) && kept != [] && Last(kept) == Last(entries)
      && |kept| <= c.maxEntries && Total(kept) <= c.maxBytes && Total(kept) <= Total(entries)
  {
    if |entries| > 1 {
      assert Last(entries[1..]) == Last(entries);
      if |entries| > c.maxEntries || Total(entries) > c.maxBytes { Trimmed(c, entries[1..]); }
    } else {
      assert Total(entries) == Last(entries).1.size + Total(entries[1..]);
    }
  }

  lemma Touched(entries: seq<(string, Entry)>, key: string)
    requires Distinct(entries) && Find(entries, key).Some?
    ensures var r := Remove(entries, key) + [(key, Find(entries, key).value)];
      Distinct(r) && Within(r, entries) && Total(r) == Total(entries) && |r| == |entries|
  {
    var e := Find(entries, key).value;
    FindIs(entries, key);
    ReplacedLast(entries, key, e, EntrySize);
    TotalIsSum(entries);
    TotalIsSum(Remove(entries, key) + [(key, e)]);
  }

  lemma BeginAccounted(c: Config, cache: Cache, now: int, key: string)
    requires Accounted(cache)
    ensures var r := Begin(c, cache, now, key);
      && Accounted(r.0) && Within(r.0.entries, cache.entries)
      && |r.0.entries| <= |cache.entries| && r.0.retained <= cache.retained
      && r.0.version == cache.version && r.0.epoch == cache.epoch
  {
    UnexpiredWithin(cache.entries, now);
    var purged := Unexpired(cache.entries, now);
    if Find(purged, key).Some? {
      Touched(purged, key);
      var r := Remove(purged, key) + [(key, Find(purged, key).value)];
      forall i | 0 <= i < |r| ensures r[i] in cache.entries { assert r[i] in purged; }
    }
  }

  /** A hit returns a stored, unexpired payload; it is the newest entry afterwards. */
  lemma HitIsStored(c: Config, cache: Cache, now: int, key: string)
    requires Accounted(cache) && Begin(c, cache, now, key).1.Hit?
    ensures var e := Find(cache.entries, key);
      && e.Some? && e.value.payload == Begin(c, cache, now, key).1.payload && e.value.expiresAt > now
      && Last(Begin(c, cache, now, key).0.entries) == (key, e.value)
  {
    UnexpiredWithin(cache.entries, now);
    var purged := Unexpired(cache.entries, now);
    FindIs(purged, key);
    var i :| 0 <= i < |purged| && purged[i] == (key, Find(purged, key).value);
    assert purged[i] in cache.entries;
    var j :| 0 <= j < |cache.entries| && cache.entries[j] == purged[i];
    FindUnique(cache.entries, key, j);
  }

  /** What a store keeps: the entries without the replaced one, the new one last, trimmed. */
  lemma Stored(c: Config, cache: Cache, key: string, e: Entry)
    requires Accounted(cache) && c.maxEntries >= 1 && e.size <= c.maxBytes
    ensures var added := Delete(cache, key).entries + [(key, e)];
      var kept := Trim(c, added);
      && Delete(cache, key).retained + e.size == Total(added)
      && Distinct(kept) && |kept| <= c.maxEntries && Total(kept) <= c.maxBytes && Find(kept, key) == Some(e)
      && (forall i :: 0 <= i < |kept| ==> kept[i] in cache.entries || kept[i] == (key, e))
  {
    RemovedTotal(cache.entries, key);
    RemovedWithin(cache.entries, key);
    var without := Remove(cache.entries, key);
    assert Delete(cache, key).entries == without;
    var added := without + [(key, e)];
    TotalAppend(without, [(key, e)]);
    assert Distinct(added) && Last(added) == (key, e);
    Trimmed(c, added);
    var kept := Trim(c, added);
    FindUnique(kept, key, |kept| - 1);
    forall i | 0 <= i < |kept| ensures kept[i] in cache.entries || kept[i] == (key, e) {
      assert kept[i] in added;
    }
  }

  /** Accounting of a store: sizes still add up, both bounds hold, and the entry just stored is there. */
  lemma FinishAccounted(c: Config, cache: Cache, token: Token, key: string, payload: Payload)
    requires Accounted(cache) && c.maxEntries >= 1
    ensures var (after, stored) := Finish(c, cache, token, key, payload);
      && Accounted(after) && after.version == cache.version && after.epoch == cache.epoch
      && (stored <==> Current(cache, token) && 2 * |key| + payload.length <= c.maxBytes)
      && (!stored ==> after == cache)
      && (stored ==> Holds(c, after, cache, key, Entry(token.expiresAt, payload, 2 * |key| + payload.length)))
  {
    var e := Entry(token.expiresAt, payload, 2 * |key| + payload.length);
    if Current(cache, token) && e.size <= c.maxBytes { Stored(c, cache, key, e); }
  }

  /** `after` is within bounds, holds `e` under `key`, and otherwise only entries of `before`. */
  ghost predicate Holds(c: Config, after: Cache, before: Cache, key: string, e: Entry) {
    && |after.entries| <= c.maxEntries && after.retained <= c.maxBytes
    && Find(after.entries, key) == Some(e)
    && (forall i :: 0 <= i < |after.entries| ==>
          after.entries[i] in before.entries || after.entries[i] == (key, e))
  }
}
