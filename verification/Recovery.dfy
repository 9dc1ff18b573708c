/** Rediscovering live orders the ledger has lost (src/poma/execution_manager.py,
    _restore_untracked_broker_orders).  Nothing is assumed of the ledger here: it may have been lost
    or be older than the broker's orders. */
module Recovery {
  import opened Models
  import opened OrderLifecycle
  import opened OrderStorage

  /** No run has this session: the stale-order check blocks on such a row for good. */
  const STALE_SESSION := "1970-01-01"

  function StripReplacement(ref: Ref): Ref {
    if ref.Rep? then ref.base else ref
  }

  function RecoveredEntry(s: Snapshot, now: real): Entry
    requires StripReplacement(s.ref).Root?
  {
    Entry(s.ref, s.ref, StripReplacement(s.ref).run, STALE_SESSION, s.ticker, s.side, s.filled + s.remaining,
          s.orderId, s.permId, Some(now), UNKNOWN, Blank, 0.0, 0.0, 0, None, true).WithSnapshot(s)
  }

  /** An open row that carries the order's ref and agrees with it. */
  ghost predicate CoveredBy(ledger: Ledger, s: Snapshot) {
    exists k :: k in ledger && Carries(ledger[k], s) && !ledger[k].Terminal()
  }

  predicate Carries(row: Entry, s: Snapshot) {
    row.orderRef == s.ref && row.ticker == s.ticker && row.side == s.side
  }

  /** Every row with the order's ref, and there is one, is open and agrees with it. */
  ghost predicate Carried(ledger: Ledger, s: Snapshot) {
    && (exists k :: k in ledger && ledger[k].orderRef == s.ref)
    && forall k | k in ledger && ledger[k].orderRef == s.ref :: Carries(ledger[k], s) && !ledger[k].Terminal()
  }

  /** Rows under a replacement ref are rows of rediscovered orders. */
  ghost predicate RecoveredKeys(ledger: Ledger) {
    forall k | k in ledger && k.Rep? :: ledger[k].orderRef == k
  }

  /** No row is changed; each new row is an open one for a listed order that the ledger did not know. */
  ghost predicate OnlyRecovers(before: Ledger, after: Ledger, snapshots: seq<Snapshot>) {
    && (forall k | k in before :: k in after && after[k] == before[k])
    && forall k | k in after && k !in before ::
         && after[k].key == k == after[k].orderRef && !after[k].Terminal()
         && after[k].session == STALE_SESSION && after[k].recovered
         && StripReplacement(k) !in before
         && exists s :: s in snapshots && s.ref == k && Carries(after[k], s)
  }

  /** Whether the broker's order can be rebuilt from its own ref. */
  predicate Readable(s: Snapshot) {
    var root := StripReplacement(s.ref);
    && root.Root? && root.ticker == s.ticker && root.side == s.side && root.run != ""
    && s.filled + s.remaining > 0.0 && s.orderId.Some?
  }

  predicate KnownAs(known: Ledger, s: Snapshot) {
    exists k :: k in known && known[k].orderRef == s.ref
  }

  /** The order conflicts with what the ledger knows, or cannot be rebuilt from its ref, or is not open. */
  predicate Conflicts(known: Ledger, s: Snapshot) {
    if KnownAs(known, s) then exists k :: k in known && known[k].orderRef == s.ref && !(Carries(known[k], s) && !known[k].Terminal())
    else StripReplacement(s.ref) in known || !Readable(s) || IsTerminal(Classify(s.status, s.filled, Max(s.remaining, 0.0)))
  }

  method Recover(store: OrderStore, s: Snapshot, known: Ledger, now: real) returns (r: Exit<Option<Entry>>)
    requires store.Valid() && known == store.disk.Ledger() && RecoveredKeys(known)
    modifies store, store.disk
    ensures store.Valid() && !r.NotConfirmed?
    ensures RecoveredKeys(store.disk.Ledger()) && OnlyRecovers(known, store.disk.Ledger(), [s])
    ensures StripReplacement(s.ref) in known ==> store.disk.Ledger() == known && (r.Ok? || r.Raised?)
    ensures Carried(known, s) ==> r == Ok(None) && store.disk.Ledger() == known
    ensures r.Ok? ==> CoveredBy(store.disk.Ledger(), s)
    ensures r.Ok? ==> (r.value.Some? <==> !KnownAs(known, s)) && (!KnownAs(known, s) ==> !Conflicts(known, s))
    ensures r.Ok? && r.value.Some? ==> r.value.value == RecoveredEntry(s, now)
    ensures r.Raised? ==> Conflicts(known, s) && store.disk.Ledger() == known
    ensures r.Ok? ==> store.disk.Ledger() == if r.value.Some? then known[r.value.value.key := r.value.value] else known
  {
    if exists k :: k in known && known[k].orderRef == s.ref {
      var k :| k in known && known[k].orderRef == s.ref;
      return if Carries(known[k], s) && !known[k].Terminal() then Ok(None) else Raised;
    }
    if StripReplacement(s.ref) in known || !Readable(s) {
      return Raised;
    }
    var entry := RecoveredEntry(s, now);
    if entry.Terminal() {
      return Raised;
    }
    assert s in [s];
    :- store.Upsert(entry);
    assert CoveredBy(store.disk.Ledger(), s) by {
      assert entry.key in store.disk.Ledger();
    }
    r := Ok(Some(entry));
  }

  lemma OnlyRecoversMore(a: Ledger, b: Ledger, c: Ledger, snapshots: seq<Snapshot>, i: nat)
    requires i < |snapshots| && OnlyRecovers(a, b, snapshots) && OnlyRecovers(b, c, [snapshots[i]])
    ensures OnlyRecovers(a, c, snapshots)
    ensures forall s :: CoveredBy(b, s) ==> CoveredBy(c, s)
  {
    forall s | CoveredBy(b, s) ensures CoveredBy(c, s) {
      var k :| k in b && Carries(b[k], s) && !b[k].Terminal();
      assert k in c && c[k] == b[k];
    }
  }

  /** On success every listed order is covered by an open row with its ref, ticker and side; no row
      that was there is changed, whether it succeeds, raises, or the process dies.  A ledger that
      knows every listed family is not written at all; when rows carry every listed order it succeeds
      and finds nothing. */
  method RestoreUntracked(store: OrderStore, snapshots: seq<Snapshot>, now: real) returns (r: Exit<seq<Entry>>)
    requires store.Valid() && RecoveredKeys(store.disk.Ledger())
    modifies store, store.disk
    ensures store.Valid() && !r.NotConfirmed? && RecoveredKeys(store.disk.Ledger())
    ensures OnlyRecovers(old(store.disk.Ledger()), store.disk.Ledger(), snapshots)
    ensures r.Ok? ==> forall s | s in snapshots :: CoveredBy(store.disk.Ledger(), s)
    ensures r.Raised? ==> exists s :: s in snapshots && Conflicts(store.disk.Ledger(), s)
    ensures (forall s | s in snapshots :: StripReplacement(s.ref) in old(store.disk.Ledger())) ==>
              store.disk.Ledger() == old(store.disk.Ledger()) && (r.Ok? || r.Raised?)
    ensures (forall s | s in snapshots :: Carried(old(store.disk.Ledger()), s)) ==>
              r == Ok([]) && store.disk.Ledger() == old(store.disk.Ledger())
  {
    ghost var before := store.disk.Ledger();
    var known := store.LatestEntries();
    var recovered: seq<Entry> := [];
    for i := 0 to |snapshots|
      invariant store.Valid() && known == store.disk.Ledger() && Restoring(before, known, snapshots, i, recovered)
    {
      var one := Recover(store, snapshots[i], known, now);
      assert snapshots[i] in snapshots;
      if !one.Ok? {
        RestoringStops(before, known, store.disk.Ledger(), snapshots, i, recovered);
        return one.PropagateFailure();
      }
      RestoringNext(before, known, store.disk.Ledger(), snapshots, i, recovered, one.value);
      if one.value.Some? {
        known := known[one.value.value.key := one.value.value];
        recovered := recovered + [one.value.value];
      }
    }
    r := Ok(recovered);
  }

  /** The first `i` orders are covered, and no row changed. */
  ghost predicate Restoring(before: Ledger, known: Ledger, snapshots: seq<Snapshot>, i: nat, recovered: seq<Entry>) {
    && i <= |snapshots| && RecoveredKeys(known) && OnlyRecovers(before, known, snapshots)
    && (forall j | 0 <= j < i :: CoveredBy(known, snapshots[j]))
    && ((forall s | s in snapshots :: StripReplacement(s.ref) in before) ==> known == before)
    && ((forall s | s in snapshots :: Carried(before, s)) ==> known == before && recovered == [])
  }

  lemma RestoringNext(before: Ledger, known: Ledger, after: Ledger, snapshots: seq<Snapshot>, i: nat, recovered: seq<Entry>,
                      one: Option<Entry>)
    requires i < |snapshots| && Restoring(before, known, snapshots, i, recovered)
    requires RecoveredKeys(after) && OnlyRecovers(known, after, [snapshots[i]]) && CoveredBy(after, snapshots[i])
    requires StripReplacement(snapshots[i].ref) in known ==> after == known
    requires Carried(known, snapshots[i]) ==> one == None && after == known
    ensures Restoring(before, after, snapshots, i + 1, if one.Some? then recovered + [one.value] else recovered)
  {
    OnlyRecoversMore(before, known, after, snapshots, i);
    NothingRestored(before, known, after, snapshots, i, recovered, one);
  }

  lemma NothingRestored(before: Ledger, known: Ledger, after: Ledger, snapshots: seq<Snapshot>, i: nat, recovered: seq<Entry>,
                        one: Option<Entry>)
    requires i < |snapshots| && Restoring(before, known, snapshots, i, recovered)
    requires StripReplacement(snapshots[i].ref) in known ==> after == known
    requires Carried(known, snapshots[i]) ==> one == None && after == known
    ensures (forall s | s in snapshots :: StripReplacement(s.ref) in before) ==> after == before
    ensures (forall s | s in snapshots :: Carried(before, s)) ==> after == before && recovered == [] && one == None
  {
    assert snapshots[i] in snapshots;
  }

  /** When an order cannot be recovered the rows found so far stay. */
  lemma RestoringStops(before: Ledger, known: Ledger, after: Ledger, snapshots: seq<Snapshot>, i: nat,
                       recovered: seq<Entry>)
    requires i < |snapshots| && Restoring(before, known, snapshots, i, recovered)
    requires OnlyRecovers(known, after, [snapshots[i]])
    requires StripReplacement(snapshots[i].ref) in known ==> after == known
    ensures OnlyRecovers(before, after, snapshots)
    ensures (forall s | s in snapshots :: StripReplacement(s.ref) in before) ==> after == before
  {
    assert snapshots[i] in snapshots;
    OnlyRecoversMore(before, known, after, snapshots, i);
  }
}
