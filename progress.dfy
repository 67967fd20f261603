/**
 * The progress store: the shared key/value cache the importer writes its live counters to
 * (`title_{id}`, `current_row_{id}`, `error_{id}`, ...), and the export progress recorder,
 * whose own storage is not part of this model and is kept as plain counters.
 */
module Progress {
  import opened Values

  /** A cached value with its expiry; `None` is `cache()->forever(...)`. */
  datatype Entry = Entry(value: Value, expiresAt: Option<Time>)

  /** The cache key `"{prefix}_{id}"`. */
  function Key(prefix: string, id: string): string
  {
    prefix + "_" + id
  }

  /** For one prefix, different task ids never share a key. */
  lemma KeyInjective(prefix: string, id1: string, id2: string)
    requires id1 != id2
    ensures Key(prefix, id1) != Key(prefix, id2)
  {
    assert Key(prefix, id1)[|prefix| + 1..] == id1;
    assert Key(prefix, id2)[|prefix| + 1..] == id2;
  }

  /** The cache, as a map from key to entry. */
  class ProgressStore {
    var entries: map<string, Entry>

    constructor ()
      ensures entries == map[]
    {
      entries := map[];
    }

    /** `cache()->forever($key, $value)`. */
    method Forever(key: string, value: Value)
      modifies this
      ensures entries == old(entries)[key := Entry(value, None)]
    {
      entries := entries[key := Entry(value, None)];
    }

    /** `cache([$key => $value], $until)`. */
    method PutUntil(key: string, value: Value, until: Time)
      modifies this
      ensures entries == old(entries)[key := Entry(value, Some(until))]
    {
      entries := entries[key := Entry(value, Some(until))];
    }
  }

  /** The recorder's counters at one moment. */
  datatype Counters = Counters(total: Option<int>, processed: nat, start: Option<Time>, failed: int, ttlRefreshes: nat)

  /** The export progress recorder of one task: total, processed rows, start, failure flag, TTL refreshes. */
  class ExportProgressRecorder {
    const id: string
    var total: Option<int>
    var processed: nat
    var start: Option<Time>
    var failed: int
    var ttlRefreshes: nat

    /** All counters of the recorder. */
    function Counts(): Counters
      reads this
    {
      Counters(total, processed, start, failed, ttlRefreshes)
    }

    constructor (id: string)
      ensures this.id == id && Counts() == Counters(None, 0, None, 0, 0)
    {
      this.id := id;
      total, processed, start, failed, ttlRefreshes := None, 0, None, 0, 0;
    }

    /** `setTotal($n)`. */
    method SetTotal(n: int)
      modifies this
      ensures Counts() == old(Counts()).(total := Some(n))
    {
      total := Some(n);
    }

    /** `setStart()`: the start is the current time. */
    method SetStart(now: Time)
      modifies this
      ensures Counts() == old(Counts()).(start := Some(now))
    {
      start := Some(now);
    }

    /** `incrementProcessed()`. */
    method IncrementProcessed()
      modifies this
      ensures Counts() == old(Counts()).(processed := old(processed) + 1)
    {
      processed := processed + 1;
    }

    /** `setFailed($n)`. */
    method SetFailed(n: int)
      modifies this
      ensures Counts() == old(Counts()).(failed := n)
    {
      failed := n;
    }

    /** `refreshTTL()`. */
    method RefreshTTL()
      modifies this
      ensures Counts() == old(Counts()).(ttlRefreshes := old(ttlRefreshes) + 1)
    {
      ttlRefreshes := ttlRefreshes + 1;
    }
  }
}
