/** The D1ReadCache class, updated in place, and the countdown that bounds its keys. */
module D1ReadCache {
  import opened Prelude
  import opened OrderedMap
  import opened ReadCache

  function Cut(es: seq<(string, Entry)>, i: nat): seq<(string, Entry)>
    requires i < |es|
  {
    es[..i] + es[i + 1..]
  }

  /** The map half way through a purge: the survivors so far, then what is still to visit. */
  ghost function HalfPurged(es: seq<(string, Entry)>, visited: nat, now: int): seq<(string, Entry)>
    requires visited <= |es|
  {
    Unexpired(es[..visited], now) + es[visited..]
  }

  /** Visiting one more entry keeps it in its place or cuts it out. */
  lemma VisitOne(es: seq<(string, Entry)>, visited: nat, now: int)
    requires visited < |es|
    ensures var half, i := HalfPurged(es, visited, now), |Unexpired(es[..visited], now)|;
      && i < |half| && half[i] == es[visited]
      && HalfPurged(es, visited + 1, now) == (if es[visited].1.expiresAt <= now then Cut(half, i) else half)
      && |Unexpired(es[..visited + 1], now)| == (if es[visited].1.expiresAt <= now then i else i + 1)
  {
    assert es[..visited + 1][..visited] == es[..visited];
    assert es[visited..] == [es[visited]] + es[visited + 1..];
  }

  lemma VisitedNone(es: seq<(string, Entry)>, now: int)
    ensures HalfPurged(es, 0, now) == es && Unexpired(es[..0], now) == []
  {
  }

  lemma VisitedAll(es: seq<(string, Entry)>, visited: nat, now: int)
    requires visited <= |es| && |HalfPurged(es, visited, now)| == |Unexpired(es[..visited], now)|
    ensures HalfPurged(es, visited, now) == Unexpired(es, now)
  {
    assert visited == |es|;
    assert es[..visited] == es;
  }

  lemma CutTotal(es: seq<(string, Entry)>, i: nat)
    requires i < |es|
    ensures Total(Cut(es, i)) == Total(es) - es[i].1.size
  {
    TotalAppend(es[..i], es[i + 1..]);
    TotalAppend(es[..i], es[i..]);
    assert es == es[..i] + es[i..] && es[i..][1..] == es[i + 1..];
  }

  /** The purge loop: visit the entries in order and delete the expired ones, giving their sizes back. */
  method DropExpired(entries: seq<(string, Entry)>, retained: int, now: int)
    returns (kept: seq<(string, Entry)>, bytes: int)
    ensures kept == Unexpired(entries, now)
    ensures bytes == retained - Total(entries) + Total(kept)
  {
    hide Unexpired, Total, Cut;
    VisitedNone(entries, now);
    kept, bytes := entries, retained;
    var i := 0;
    ghost var visited := 0;
    while i < |kept|
      invariant visited <= |entries| && kept == HalfPurged(entries, visited, now)
      invariant i == |Unexpired(entries[..visited], now)| && bytes - Total(kept) == retained - Total(entries)
      decreases |entries| - visited
    {
      VisitOne(entries, visited, now);
      if kept[i].1.expiresAt <= now {
        CutTotal(kept, i);
        bytes := bytes - kept[i].1.size;
        kept := Cut(kept, i);
      } else {
        i := i + 1;
      }
      visited := visited + 1;
    }
    VisitedAll(entries, visited, now);
  }

  class ResultCache {
    const config: Config
    var entries: seq<(string, Entry)>
    var retainedBytes: int
    var mutationVersion: nat
    var epoch: nat

    /** `symbol` stands for the fresh Symbol that names the epoch. */
    constructor (c: Config, symbol: nat)
      ensures config == c && View() == NewCache(symbol) && Valid()
    {
      config := c;
      entries, retainedBytes, mutationVersion, epoch := [], 0, 0, symbol;
    }

    ghost function View(): Cache
      reads this
    {
      Cache(entries, retainedBytes, mutationVersion, epoch)
    }

    /** Keys are distinct and `retainedBytes` is the sum of the entry sizes. */
    ghost predicate Valid()
      reads this
    {
      Accounted(View())
    }

    method DeleteEntry(key: string) returns (found: bool)
      requires Valid()
      modifies this`entries, this`retainedBytes
      ensures Valid() && View() == Delete(old(View()), key)
      ensures found <==> Find(old(entries), key).Some?
    {
      var index := Locate(entries, key);
      if index == |entries| { return false; }
      RemovedTotal(entries, key);
      RemovedWithin(entries, key);
      var entry := entries[index].1;
      entries := entries[..index] + entries[index + 1..];
      retainedBytes := retainedBytes - entry.size;
      found := true;
    }

    method PurgeExpired(now: int)
      requires Valid()
      modifies this`entries, this`retainedBytes
      ensures Valid() && View() == Purge(old(View()), now)
    {
      UnexpiredWithin(entries, now);
      var kept, bytes := DropExpired(entries, retainedBytes, now);
      entries, retainedBytes := kept, bytes;
    }

    method BeginRead(now: int, key: string) returns (read: Read)
      requires Valid()
      modifies this`entries, this`retainedBytes
      ensures Valid() && (View(), read) == Begin(config, old(View()), now, key)
    {
      BeginAccounted(config, View(), now, key);
      PurgeExpired(now);
      if 2 * |key| > config.maxBytes { return Bypass; }
      var index := Locate(entries, key);
      if index == |entries| { return Miss(Token(epoch, mutationVersion, now + config.ttl)); }
      var entry := entries[index].1;
      entries := entries[..index] + entries[index + 1..] + [(key, entry)];
      read := Hit(entry.payload);
    }

    method FinishRead(token: Token, key: string, payload: Payload) returns (stored: bool)
      requires Valid() && config.maxEntries >= 1
      modifies this`entries, this`retainedBytes
      ensures Valid() && (View(), stored) == Finish(config, old(View()), token, key, payload)
    {
      FinishAccounted(config, View(), token, key, payload);
      if token.epoch != epoch || token.version != mutationVersion { return false; }
      var size := 2 * |key| + payload.length;
      if size > config.maxBytes { return false; }
      var _ := DeleteEntry(key);
      TotalAppend(entries, [(key, Entry(token.expiresAt, payload, size))]);
      entries := entries + [(key, Entry(token.expiresAt, payload, size))];
      retainedBytes := retainedBytes + size;
      ghost var added := entries;
      while |entries| > config.maxEntries || retainedBytes > config.maxBytes
        invariant Trim(config, entries) == Trim(config, added) && retainedBytes == Total(entries)
        decreases |entries|
      {
        if entries == [] { break; }
        retainedBytes := retainedBytes - entries[0].1.size;
        entries := entries[1..];
      }
      stored := true;
    }

    method MarkInvalid()
      modifies this
      ensures Valid() && View() == Invalidate(old(View()))
    {
      mutationVersion := mutationVersion + 1;
      entries, retainedBytes := [], 0;
    }

    method RetireAs(symbol: nat)
      modifies this
      ensures Valid() && View() == Retire(old(View()), symbol)
    {
      epoch := symbol;
      entries, retainedBytes := [], 0;
    }
  }

  // ---- Bounding a key before it is built ----

  const MAX_RETAINED_BYTES_PER_CODE_UNIT := 12

  function TotalUnits(values: seq<Option<string>>): nat {
    if values == [] then 0
    else (if values[0].Some? then |values[0].value| else 0) + TotalUnits(values[1..])
  }

  /** The countdown over the key's strings: `None` is a value that is not a string. */
  method CacheKeyStringsCouldFit(values: seq<Option<string>>, maxBytes: nat) returns (fits: bool)
    ensures fits <==> MAX_RETAINED_BYTES_PER_CODE_UNIT * TotalUnits(values) <= maxBytes
  {
    var remaining := maxBytes / MAX_RETAINED_BYTES_PER_CODE_UNIT;
    assert values[0..] == values;
    for i := 0 to |values|
      invariant remaining >= 0
      invariant remaining + TotalUnits(values) - TotalUnits(values[i..]) == maxBytes / MAX_RETAINED_BYTES_PER_CODE_UNIT
    {
      assert values[i..][1..] == values[i + 1..];
      if values[i].Some? {
        remaining := remaining - |values[i].value|;
        if remaining < 0 { return false; }
      }
    }
    fits := true;
  }
}
