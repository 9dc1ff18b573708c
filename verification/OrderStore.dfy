/** The durable order ledger (src/poma/order_store.py): an append-only event log that is
    authoritative after a crash, an open-order snapshot that is rewritten, and a read cache that is
    trusted only while the files' signature has not moved. */
module OrderStorage {
  import opened Models
  import opened OrderLifecycle

  /** Last write wins. */
  ghost function Replay(base: Ledger, log: seq<Entry>): (ledger: Ledger) {
    if log == [] then base
    else
      var last := log[|log| - 1];
      Replay(base, log[..|log| - 1])[last.key := last]
  }

  /** What a fresh process reads: the snapshot file, then the event log over it. */
  ghost function Load(snapshot: seq<Entry>, events: seq<Entry>): Ledger {
    Replay(Replay(map[], snapshot), events)
  }

  ghost predicate KeyedByItself(ledger: Ledger) {
    forall k | k in ledger :: ledger[k].key == k
  }

  /** `rows` lists the open part of `ledger`, in any order. */
  ghost predicate ListsOpen(rows: seq<Entry>, ledger: Ledger) {
    && (forall i | 0 <= i < |rows| :: rows[i].key in ledger && ledger[rows[i].key] == rows[i] && !rows[i].Terminal())
    && (forall i, j | 0 <= i < j < |rows| :: rows[i].key != rows[j].key)
    && (forall k | k in ledger && !ledger[k].Terminal() :: exists i :: 0 <= i < |rows| && rows[i].key == k)
  }

  ghost predicate Mentions(log: seq<Entry>, key: Ref) {
    exists i :: 0 <= i < |log| && log[i].key == key
  }

  lemma {:induction false} ReplayKeyed(base: Ledger, log: seq<Entry>)
    requires KeyedByItself(base)
    ensures KeyedByItself(Replay(base, log))
  {
    if log != [] {
      ReplayKeyed(base, log[..|log| - 1]);
    }
  }

  /** A key the log mentions reads the same over any base; any other key reads from the base. */
  lemma {:induction false} ReplayAt(base: Ledger, other: Ledger, log: seq<Entry>, key: Ref)
    ensures Mentions(log, key) ==>
              && key in Replay(base, log) && key in Replay(other, log)
              && Replay(base, log)[key] == Replay(other, log)[key]
    ensures !Mentions(log, key) ==>
              && (key in Replay(base, log) <==> key in base)
              && (key in base ==> Replay(base, log)[key] == base[key])
  {
    if log != [] {
      var init := log[..|log| - 1];
      ReplayAt(base, other, init, key);
      assert Mentions(init, key) ==> Mentions(log, key);
      if Mentions(log, key) && !Mentions(init, key) {
        assert log[|log| - 1].key == key;
      }
      assert log[|log| - 1].key == key ==> Mentions(log, key);
    }
  }

  lemma {:induction false} ReplayValues(base: Ledger, log: seq<Entry>, key: Ref)
    requires key in Replay(base, log)
    ensures (key in base && Replay(base, log)[key] == base[key]) || Replay(base, log)[key] in log
  {
    if log != [] && log[|log| - 1].key != key {
      ReplayValues(base, log[..|log| - 1], key);
    }
  }

  lemma {:induction false} ReplayDistinct(rows: seq<Entry>, i: nat)
    requires forall i, j | 0 <= i < j < |rows| :: rows[i].key != rows[j].key
    requires i < |rows|
    ensures rows[i].key in Replay(map[], rows) && Replay(map[], rows)[rows[i].key] == rows[i]
  {
    if i < |rows| - 1 {
      ReplayDistinct(rows[..|rows| - 1], i);
    }
  }

  lemma ReplayOfOpen(rows: seq<Entry>, ledger: Ledger)
    requires ListsOpen(rows, ledger)
    ensures Replay(map[], rows) == map k | k in ledger && !ledger[k].Terminal() :: ledger[k]
  {
    var read := Replay(map[], rows);
    forall k | k in read ensures k in ledger && !ledger[k].Terminal() {
      ReplayValues(map[], rows, k);
      ReplayKeyed(map[], rows);
    }
    forall k | k in ledger && !ledger[k].Terminal() ensures k in read && read[k] == ledger[k] {
      var i :| 0 <= i < |rows| && rows[i].key == k;
      ReplayDistinct(rows, i);
    }
  }

  ghost predicate AllOpen(rows: seq<Entry>) {
    forall i | 0 <= i < |rows| :: !rows[i].Terminal()
  }

  /** Appending the event is the commit point: whether or not the snapshot rewrite follows, a fresh
      load reads the old ledger with exactly this row written over it. */
  lemma CommitPoint(snapshot: seq<Entry>, events: seq<Entry>, entry: Entry, rewritten: seq<Entry>)
    requires AllOpen(snapshot)
    requires ListsOpen(rewritten, Load(snapshot, events)[entry.key := entry])
    ensures Load(snapshot, events + [entry]) == Load(snapshot, events)[entry.key := entry]
    ensures Load(rewritten, events + [entry]) == Load(snapshot, events)[entry.key := entry]
    ensures AllOpen(rewritten)
  {
    var log := events + [entry];
    assert log[..|log| - 1] == events;
    var before := Replay(map[], snapshot);
    var after := Replay(map[], rewritten);
    var ledger := Load(snapshot, events)[entry.key := entry];
    ReplayOfOpen(rewritten, ledger);
    forall k | k != entry.key
      ensures k in Replay(after, events) <==> k in ledger
      ensures k in ledger ==> Replay(after, events)[k] == ledger[k]
    {
      ReplayAt(before, after, events, k);
      ReplayAt(after, before, events, k);
      if k in before {
        ReplayValues(map[], snapshot, k);
      }
    }
    assert Load(rewritten, log) == Replay(after, events)[entry.key := entry];
  }

  /** A row of the run for every ticker and side the run has one for. */
  ghost predicate RunTrades(ledger: Ledger, run: string, prior: map<(string, Side), Entry>) {
    && (forall k | k in ledger && ledger[k].run == run :: (ledger[k].ticker, ledger[k].side) in prior)
    && forall id | id in prior :: exists k ::
         k in ledger && ledger[k] == prior[id] && prior[id].run == run && (prior[id].ticker, prior[id].side) == id
  }

  /** The two files and the signature (inode, size, mtime) that changes with every write. */
  class Disk {
    var snapshot: seq<Entry>
    var events: seq<Entry>
    var stamp: nat

    constructor ()
      ensures Valid() && Ledger() == map[]
    {
      snapshot, events, stamp := [], [], 0;
    }

    ghost predicate Valid()
      reads this
    {
      AllOpen(snapshot)
    }

    ghost function Ledger(): Ledger
      reads this
    {
      Load(snapshot, events)
    }
  }

  class OrderStore {
    const disk: Disk
    var cache: Option<Ledger>
    var signature: nat

    constructor (disk: Disk)
      requires disk.Valid()
      ensures Valid() && this.disk == disk
    {
      this.disk := disk;
      cache, signature := None, 0;
    }

    /** Other stores over the same files may have written since: the cache is right whenever its
        signature is current, and its signature is never from the future. */
    ghost predicate Valid()
      reads this, disk
    {
      && disk.Valid()
      && (cache.Some? ==> signature <= disk.stamp)
      && (cache.Some? && signature == disk.stamp ==> cache.value == disk.Ledger())
    }

    method LatestEntries() returns (entries: Ledger)
      requires Valid()
      modifies this
      ensures Valid()
      ensures entries == disk.Ledger()
    {
      if cache.Some? && signature == disk.stamp {
        return cache.value;
      }
      entries := map[];
      for i := 0 to |disk.snapshot|
        invariant entries == Replay(map[], disk.snapshot[..i])
      {
        assert disk.snapshot[..i + 1][..i] == disk.snapshot[..i];
        entries := entries[disk.snapshot[i].key := disk.snapshot[i]];
      }
      assert disk.snapshot[..|disk.snapshot|] == disk.snapshot;
      for i := 0 to |disk.events|
        invariant entries == Replay(Replay(map[], disk.snapshot), disk.events[..i])
      {
        assert disk.events[..i + 1][..i] == disk.events[..i];
        entries := entries[disk.events[i].key := disk.events[i]];
      }
      assert disk.events[..|disk.events|] == disk.events;
      cache, signature := Some(entries), disk.stamp;
    }

    method LoadOpenOrders() returns (rows: seq<Entry>)
      requires Valid()
      modifies this
      ensures Valid()
      ensures ListsOpen(rows, disk.Ledger())
    {
      var entries := LatestEntries();
      ReplayKeyed(map[], disk.snapshot);
      ReplayKeyed(Replay(map[], disk.snapshot), disk.events);
      rows := OpenRows(entries);
    }

    /** The open row under `key`: a terminal row is not found. */
    method Get(key: Ref) returns (row: Option<Entry>)
      requires Valid()
      modifies this
      ensures Valid()
      ensures row == if key in disk.Ledger() && !disk.Ledger()[key].Terminal() then Some(disk.Ledger()[key]) else None
    {
      var rows := LoadOpenOrders();
      row := None;
      for i := 0 to |rows|
        invariant row == None
        invariant forall j | 0 <= j < i :: rows[j].key != key
      {
        if rows[i].key == key {
          return Some(rows[i]);
        }
      }
    }

    method GetLatestMany(keys: set<Ref>) returns (rows: Ledger)
      requires Valid()
      modifies this
      ensures Valid()
      ensures rows == map k | k in keys && k in disk.Ledger() :: disk.Ledger()[k]
    {
      if keys == {} {
        return map[];
      }
      var entries := LatestEntries();
      rows := map k | k in entries && k in keys :: entries[k];
    }

    /** The row previously planned in this run for each ticker and side. */
    method GetLatestRunTrades(run: string) returns (prior: map<(string, Side), Entry>)
      requires Valid()
      modifies this
      ensures Valid()
      ensures RunTrades(disk.Ledger(), run, prior)
    {
      var entries := LatestEntries();
      var todo := entries.Keys;
      prior := map[];
      while todo != {}
        invariant todo <= entries.Keys
        invariant forall k | k in entries && k !in todo && entries[k].run == run ::
                    (entries[k].ticker, entries[k].side) in prior
        invariant forall id | id in prior :: exists k ::
                    k in entries && entries[k] == prior[id]
                    && prior[id].run == run && (prior[id].ticker, prior[id].side) == id
        decreases |todo|
      {
        var k :| k in todo;
        todo := todo - {k};
        if entries[k].run == run {
          prior := prior[(entries[k].ticker, entries[k].side) := entries[k]];
        }
      }
    }

    /** Append, then rewrite the snapshot.  The process may die before the append, between the two
        writes, or after them; the ledger a fresh process loads is the old one or the new one, and
        it is the new one on return. */
    method Upsert(entry: Entry) returns (r: Step)
      requires Valid()
      modifies this, disk
      ensures Valid()
      ensures !r.Raises?
      ensures disk.Ledger() == old(disk.Ledger())[entry.key := entry]
              || (r.Dies? && disk.Ledger() == old(disk.Ledger()))
      ensures old(disk.stamp) <= disk.stamp
      ensures disk.stamp == old(disk.stamp) ==> unchanged(disk)
    {
      var entries := LatestEntries();
      if * {
        return Dies;
      }
      ReplayKeyed(map[], disk.snapshot);
      ReplayKeyed(Replay(map[], disk.snapshot), disk.events);
      entries := entries[entry.key := entry];
      var open := OpenRows(entries);
      CommitPoint(disk.snapshot, disk.events, entry, open);
      disk.events := disk.events + [entry];
      disk.stamp := disk.stamp + 1;
      if * {
        return Dies;
      }
      disk.snapshot := open;
      disk.stamp := disk.stamp + 1;
      cache, signature := Some(entries), disk.stamp;
      if * {
        return Dies;
      }
      r := Done;
    }
  }

  /** A read through one store after a write through another sees the write, whatever the reader
      had cached. */
  method ReadAfterForeignWrite(writer: OrderStore, reader: OrderStore, entry: Entry) returns (r: Exit<Ledger>)
    requires writer != reader && writer.disk == reader.disk && writer.Valid() && reader.Valid()
    modifies writer, reader, writer.disk
    ensures r.Ok? ==> r.value == old(writer.disk.Ledger())[entry.key := entry]
  {
    var written := writer.Upsert(entry);
    if !written.Done? {
      return written.PropagateFailure();
    }
    var entries := reader.LatestEntries();
    r := Ok(entries);
  }

  method OpenRows(entries: Ledger) returns (rows: seq<Entry>)
    requires KeyedByItself(entries)
    ensures ListsOpen(rows, entries)
  {
    var todo := entries.Keys;
    rows := [];
    while todo != {}
      invariant todo <= entries.Keys
      invariant forall i | 0 <= i < |rows| :: rows[i].key in entries && rows[i].key !in todo
                                              && entries[rows[i].key] == rows[i] && !rows[i].Terminal()
      invariant forall i, j | 0 <= i < j < |rows| :: rows[i].key != rows[j].key
      invariant forall k | k in entries && k !in todo && !entries[k].Terminal() :: exists i :: 0 <= i < |rows| && rows[i].key == k
      decreases |todo|
    {
      var k :| k in todo;
      todo := todo - {k};
      if !entries[k].Terminal() {
        ghost var was := rows;
        rows := rows + [entries[k]];
        assert rows[|was|].key == k;
        assert forall i | 0 <= i < |was| :: rows[i] == was[i];
      }
    }
  }
}
