/** The append-only audit store with its claim gate (go/rz/store.go). File access
    is taken to succeed; each method is one critical section of the store's
    mutex. */
module Store {
  import opened Types
  import opened Chain

  /** The previous hash `Append` links to: a last row without a hash counts as none. */
  function LinkHash(log: seq<Entry>): string {
    if log == [] || log[|log| - 1].hash == "" then GENESIS else log[|log| - 1].hash
  }

  function Appended(c: Crypto, log: seq<Entry>, e: Row): seq<Entry> {
    log + [Entry(e, LinkHash(log), ComputeHash(c, LinkHash(log), e))]
  }

  /** Appending rows one by one through the store. */
  function AppendedAll(c: Crypto, log: seq<Entry>, rows: seq<Row>): (out: seq<Entry>)
    decreases rows
  {
    if rows == [] then log else AppendedAll(c, Appended(c, log, rows[0]), rows[1..])
  }

  lemma {:induction false} AppendedAllConcat(c: Crypto, log: seq<Entry>, a: seq<Row>, b: seq<Row>)
    ensures AppendedAll(c, log, a + b) == AppendedAll(c, AppendedAll(c, log, a), b)
    decreases a
  {
    if a == [] {
      assert a + b == b;
    } else {
      assert (a + b)[1..] == a[1..] + b;
      AppendedAllConcat(c, Appended(c, log, a[0]), a[1..], b);
    }
  }

  lemma {:induction false} AppendedAllRows(c: Crypto, log: seq<Entry>, rows: seq<Row>)
    ensures RowsOf(AppendedAll(c, log, rows)) == RowsOf(log) + rows
    ensures log <= AppendedAll(c, log, rows)
    decreases rows
  {
    if rows != [] {
      AppendedAllRows(c, Appended(c, log, rows[0]), rows[1..]);
    }
  }

  lemma AppendedOneMore(c: Crypto, log: seq<Entry>, rows: seq<Row>, e: Row)
    ensures Appended(c, AppendedAll(c, log, rows), e) == AppendedAll(c, log, rows + [e])
  {
    AppendedAllConcat(c, log, rows, [e]);
    assert AppendedAll(c, AppendedAll(c, log, rows), [e])
           == AppendedAll(c, Appended(c, AppendedAll(c, log, rows), e), []);
  }

  lemma AppendedNothing(c: Crypto, log: seq<Entry>)
    ensures AppendedAll(c, log, []) == log
  {
  }

  class AuditStore {
    const crypto: Crypto
    var file: seq<Entry>
    var claimed: set<string>
    var hydrated: bool

    /** Before hydration nothing is claimed in memory. */
    ghost predicate Valid()
      reads this
    {
      !hydrated ==> claimed == {}
    }

    /** The ids a claim is refused for. */
    ghost function Horizon(): set<string>
      reads this
    {
      if hydrated then claimed else claimed + LoggedIds(file)
    }

    /** Opens a store over an existing log. */
    constructor (crypto: Crypto, file: seq<Entry>)
      ensures Valid() && !hydrated && this.crypto == crypto && this.file == file
      ensures Horizon() == LoggedIds(file)
    {
      this.crypto := crypto;
      this.file := file;
      claimed, hydrated := {}, false;
    }

    method Append(e: Row)
      requires Valid()
      modifies this`file
      ensures Valid()
      ensures file == Appended(crypto, old(file), e)
    {
      var prevHash := if |file| == 0 then "" else file[|file| - 1].hash;
      if prevHash == "" {
        prevHash := GENESIS;
      }
      file := file + [Entry(e, prevHash, ComputeHash(crypto, prevHash, e))];
    }

    method All() returns (log: seq<Entry>)
      ensures log == file
    {
      log := file;
    }

    /** True exactly for an id that is neither claimed nor in the log. */
    method Claim(eventId: string) returns (first: bool)
      requires Valid()
      modifies this`claimed, this`hydrated
      ensures Valid() && hydrated
      ensures first <==> eventId !in old(Horizon())
      ensures claimed == Horizon() == old(Horizon()) + {eventId}
    {
      Hydrate();
      if eventId in claimed {
        assert claimed == old(Horizon()) + {eventId};
        return false;
      }
      claimed := claimed + {eventId};
      return true;
    }

    /** Rebuilds the claimed ids from the log, once. */
    method Hydrate()
      requires Valid()
      modifies this`claimed, this`hydrated
      ensures Valid() && hydrated
      ensures claimed == old(Horizon())
    {
      if !hydrated {
        for i := 0 to |file|
          invariant claimed == set j | 0 <= j < i :: file[j].row.eventId
          invariant !hydrated
        {
          claimed := claimed + {file[i].row.eventId};
        }
        hydrated := true;
      }
    }

    method Clear()
      modifies this`file, this`claimed, this`hydrated
      ensures Valid() && file == [] && Horizon() == {}
    {
      file := [];
      claimed, hydrated := {}, false;
    }
  }

  /** The log every run leaves behind verifies, if the one it started from did. */
  lemma {:induction false} AppendedAllVerifies(c: Crypto, log: seq<Entry>, rows: seq<Row>)
    requires Sound(c) && ValidChain(c, log)
    ensures ValidChain(c, AppendedAll(c, log, rows))
    decreases rows
  {
    if rows != [] {
      AppendedIsChainAppend(c, log, rows[0]);
      AppendVerifies(c, log, rows[0]);
      AppendedAllVerifies(c, Appended(c, log, rows[0]), rows[1..]);
    }
  }

  /** On a valid chain, appending through the store is the pure append. */
  lemma AppendedIsChainAppend(c: Crypto, log: seq<Entry>, e: Row)
    requires Sound(c) && ValidChain(c, log)
    ensures Appended(c, log, e) == AppendAuditEntry(c, log, e)
  {
    if log != [] {
      assert LinkedAt(c, log, |log| - 1);
    }
  }
}
