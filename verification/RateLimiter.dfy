/**
 The relay's rate limiter: per key a counter and the start of its window. Windows are fixed, not
 rolling, so a burst around the turn of a window can be twice as large as within one.
 */
module RateLimiters {
  datatype Entry = Entry(count: nat, start: int)
  datatype Limits = Limits(maxFailures: nat, windowMs: nat)

  // ---- The table as a value ----

  type Table = map<string, Entry>

  /** The entry a call works on: a missing one is new, one whose window has passed starts again. */
  function Current(limits: Limits, table: Table, key: string, now: int): Entry {
    if key !in table || now - table[key].start > limits.windowMs then Entry(0, now) else table[key]
  }

  predicate IsAllowed(limits: Limits, table: Table, key: string, now: int) {
    Current(limits, table, key, now).count < limits.maxFailures
  }

  function Touched(limits: Limits, table: Table, key: string, now: int): Table {
    table[key := Current(limits, table, key, now)]
  }

  function Recorded(limits: Limits, table: Table, key: string, now: int): Table {
    var e := Current(limits, table, key, now);
    table[key := e.(count := e.count + 1)]
  }

  class RateLimiter {
    const limits: Limits
    var table: Table

    constructor (maxFailures: nat, windowSecs: nat)
      ensures limits == Limits(maxFailures, windowSecs * 1000) && table == map[]
    {
      limits := Limits(maxFailures, windowSecs * 1000);
      table := map[];
    }

    method Allowed(key: string, now: int) returns (ok: bool)
      modifies this
      ensures table == Touched(limits, old(table), key, now)
      ensures ok == IsAllowed(limits, old(table), key, now)
    {
      var entry := if key in table then table[key] else Entry(0, now);
      if now - entry.start > limits.windowMs {
        entry := Entry(0, now);
      }
      table := table[key := entry];
      ok := entry.count < limits.maxFailures;
    }

    method RecordFailure(key: string, now: int)
      modifies this
      ensures table == Recorded(limits, old(table), key, now)
    {
      var entry := if key in table then table[key] else Entry(0, now);
      if now - entry.start > limits.windowMs {
        entry := Entry(0, now);
      }
      table := table[key := entry.(count := entry.count + 1)];
    }

    method Reset(key: string)
      modifies this
      ensures table == old(table) - {key}
    {
      table := table - {key};
    }
  }
}
