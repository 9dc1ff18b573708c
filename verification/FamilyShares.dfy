/** The shares a family has executed, and when a replacement can take it past its row. */
module FamilyShares {
  import opened Models
  import opened OrderLifecycle
  import opened BrokerModel
  import opened LedgerInvariant

  predicate Family(order: Order, key: Ref) {
    RootOf(order.ref) == key
  }

  /** Shares the family of `key` has executed. */
  function FilledShares(os: seq<Order>, key: Ref): real {
    if os == [] then 0.0
    else FilledShares(os[..|os| - 1], key) + (if Family(os[|os| - 1], key) then os[|os| - 1].filled else 0.0)
  }

  /** Shares executed under the reserved replacement ref. */
  function ReservedShares(os: seq<Order>, key: Ref): real {
    if os == [] then 0.0
    else ReservedShares(os[..|os| - 1], key) + (if os[|os| - 1].ref == Rep(key, 1) then os[|os| - 1].filled else 0.0)
  }

  /** Two orders under the reserved ref both executed shares. */
  ghost predicate ReplacedTwice(os: seq<Order>, key: Ref) {
    exists i, j :: 0 <= i < j < |os| && ExecutedReplacement(os[i], key) && ExecutedReplacement(os[j], key)
  }

  predicate ExecutedReplacement(order: Order, key: Ref) {
    order.ref == Rep(key, 1) && order.filled > 0.0
  }

  lemma {:induction false} SharesSplit(os: seq<Order>, key: Ref)
    requires key.Root? && AllSound(os)
    requires forall i | InFamily(os, key, i) :: os[i].ref == key || os[i].ref == Rep(key, 1)
    requires forall i, j | 0 <= i < j < |os| && os[i].ref == key :: os[j].ref != key
    ensures (forall i | 0 <= i < |os| :: os[i].ref != key) ==> FilledShares(os, key) == ReservedShares(os, key)
    ensures forall i | 0 <= i < |os| && os[i].ref == key :: FilledShares(os, key) == ReservedShares(os, key) + os[i].filled
  {
    if os != [] {
      var n := |os| - 1;
      var rest := os[..n];
      assert forall i | 0 <= i < n :: rest[i] == os[i];
      assert forall i | InFamily(rest, key, i) :: InFamily(os, key, i);
      SharesSplit(rest, key);
      assert RootOf(Rep(key, 1)) == RootOf(key) == key;
      assert InFamily(os, key, n) <==> Family(os[n], key);
    }
  }

  lemma TwiceStays(os: seq<Order>, key: Ref)
    requires os != []
    ensures ReplacedTwice(os[..|os| - 1], key) ==> ReplacedTwice(os, key)
  {
    var rest := os[..|os| - 1];
    if ReplacedTwice(rest, key) {
      var i, j :| 0 <= i < j < |rest| && ExecutedReplacement(rest[i], key) && ExecutedReplacement(rest[j], key);
      assert ExecutedReplacement(os[i], key) && ExecutedReplacement(os[j], key);
    }
  }

  lemma {:induction false} ReservedBound(os: seq<Order>, key: Ref, bound: real)
    requires AllSound(os) && bound >= 0.0 && !ReplacedTwice(os, key)
    requires forall i | 0 <= i < |os| && os[i].ref == Rep(key, 1) :: os[i].filled <= bound
    ensures ReservedShares(os, key) <= bound
    ensures (forall i | 0 <= i < |os| :: !ExecutedReplacement(os[i], key)) ==> ReservedShares(os, key) == 0.0
  {
    if os != [] {
      var n := |os| - 1;
      var rest := os[..n];
      assert forall i | 0 <= i < n :: rest[i] == os[i];
      TwiceStays(os, key);
      ReservedBound(rest, key, bound);
      if ExecutedReplacement(os[n], key) {
        forall i | 0 <= i < n ensures !ExecutedReplacement(rest[i], key) {
        }
      }
    }
  }

  /** A key's family has executed no more shares than its row allows, unless two replacements under its
      reserved ref both executed. */
  lemma OnlyTwiceExceeds(l: Ledger, os: seq<Order>, key: Ref)
    requires Inv(l, os) && key in l && !ReplacedTwice(os, key)
    ensures FilledShares(os, key) <= Max(l[key].quantity, 0.0)
  {
    var row := l[key];
    assert RowOK(key, row, os);
    forall i | InFamily(os, key, i) ensures os[i].ref == key || os[i].ref == Rep(key, 1) {
      FamilyHasTwoRefs(os, key, i);
    }
    forall i, j | 0 <= i < j < |os| && os[i].ref == key ensures os[j].ref != key {
      assert Coexist(os[i], os[j]);
    }
    SharesSplit(os, key);
    if o: nat :| 0 <= o < |os| && os[o].ref == key {
      assert InFamily(os, key, o) && Admits(key, row, os[o]);
      forall i | 0 <= i < |os| && os[i].ref == Rep(key, 1) ensures os[i].filled <= os[o].total - os[o].filled {
        ReplacementTakesRest(os, key, i, o);
      }
      ReservedBound(os, key, os[o].total - os[o].filled);
    } else {
      forall i | 0 <= i < |os| ensures os[i].ref != Rep(key, 1) {
        ReplacementHasOriginal(os, key, i);
      }
      ReservedBound(os, key, 0.0);
    }
  }

  /** A replacement is for no more than its original left. */
  lemma ReplacementTakesRest(os: seq<Order>, key: Ref, i: nat, o: nat)
    requires OrdersOK(os) && key.Root? && i < |os| && o < |os| && os[i].ref == Rep(key, 1) && os[o].ref == key
    ensures os[i].filled + os[o].filled <= os[i].total + os[o].filled <= os[o].total
  {
    assert HasOriginal(os, i) && RootOf(Rep(key, 1)) == RootOf(key) == key;
    var m :| Succeeds(os, i, m);
    OneOriginal(os, key, m, o);
  }

  lemma OneOriginal(os: seq<Order>, key: Ref, i: nat, j: nat)
    requires OrdersOK(os) && key.Root? && i < |os| && j < |os| && os[i].ref == key && os[j].ref == key
    ensures i == j
  {
    assert i < j ==> Coexist(os[i], os[j]);
    assert j < i ==> Coexist(os[j], os[i]);
  }

  lemma ReplacementHasOriginal(os: seq<Order>, key: Ref, i: nat)
    requires OrdersOK(os) && key.Root? && i < |os|
    ensures os[i].ref == Rep(key, 1) ==> exists m :: 0 <= m < |os| && os[m].ref == key
  {
    if os[i].ref == Rep(key, 1) {
      assert HasOriginal(os, i) && RootOf(Rep(key, 1)) == RootOf(key) == key;
      var m :| Succeeds(os, i, m);
    }
  }

  lemma {:induction false} ReservedNonNegative(os: seq<Order>, key: Ref)
    requires AllSound(os)
    ensures ReservedShares(os, key) >= 0.0
  {
    if os != [] {
      ReservedNonNegative(os[..|os| - 1], key);
    }
  }

  // ---- guarded replacements ----

  /** No order under the ref has executed a share or still can. */
  predicate Unused(os: seq<Order>, ref: Ref) {
    os == [] || (Unused(os[..|os| - 1], ref) && (os[|os| - 1].ref == ref ==> Idle(os[|os| - 1])))
  }

  predicate Idle(order: Order) {
    IsDone(order.status) && order.filled == 0.0
  }

  lemma {:induction false} UnusedMeans(os: seq<Order>, ref: Ref)
    ensures Unused(os, ref) <==> forall i | 0 <= i < |os| && os[i].ref == ref :: Idle(os[i])
  {
    if os != [] {
      var rest := os[..|os| - 1];
      UnusedMeans(rest, ref);
      assert forall i | 0 <= i < |rest| :: rest[i] == os[i];
    }
  }

  /** Every replacement was placed while nothing under its ref had executed. */
  predicate Guarded(os: seq<Order>) {
    os == [] || (Guarded(os[..|os| - 1]) && Unfilled(os[..|os| - 1], os[|os| - 1].ref))
  }

  /** No order under the ref has a fill. */
  predicate Unfilled(os: seq<Order>, ref: Ref) {
    os == [] || (Unfilled(os[..|os| - 1], ref) && (os[|os| - 1].ref == ref ==> os[|os| - 1].filled == 0.0))
  }

  lemma {:induction false} UnfilledMeans(os: seq<Order>, ref: Ref)
    ensures Unfilled(os, ref) <==> forall i | 0 <= i < |os| && os[i].ref == ref :: os[i].filled == 0.0
  {
    if os != [] {
      var rest := os[..|os| - 1];
      UnfilledMeans(rest, ref);
      assert forall i | 0 <= i < |rest| :: rest[i] == os[i];
    }
  }

  /** Of two orders under one ref the earlier one, which was done before the later one was placed, has no
      fill. */
  lemma {:induction false} GuardedMeans(os: seq<Order>)
    ensures Guarded(os) <==> forall i, j | 0 <= i < j < |os| :: UnfilledBefore(os[i], os[j])
  {
    if os != [] {
      var n := |os| - 1;
      var rest := os[..n];
      GuardedMeans(rest);
      UnfilledMeans(rest, os[n].ref);
      assert forall i | 0 <= i < n :: rest[i] == os[i];
      assert Unfilled(rest, os[n].ref) <==> forall i | 0 <= i < n :: UnfilledBefore(os[i], os[n]);
      assert Guarded(rest) <==> forall i, j | 0 <= i < j < n :: UnfilledBefore(os[i], os[j]);
    }
  }

  predicate UnfilledBefore(earlier: Order, later: Order) {
    earlier.ref == later.ref ==> earlier.filled == 0.0
  }

  /** If every replacement was guarded before, every one is now. */
  predicate KeepsGuard(os: seq<Order>, os': seq<Order>) {
    Guarded(os) ==> Guarded(os')
  }

  /** What counts is what had executed when the later order was placed: that never changes again. */
  lemma GuardIsFixedAtPlacement(os: seq<Order>, placed: seq<Order>, later: seq<Order>, ref: Ref, total: real, i: nat)
    requires OrdersOK(placed) && Placed(os, placed, ref, total) && Later(placed, later)
    requires i < |os| && os[i].ref == ref
    ensures later[i] == placed[i]
  {
    assert Moves(os[i], placed[i]) && Coexist(placed[i], placed[|os|]) && Moves(placed[i], later[i]);
  }

  lemma GuardedDrifts(os: seq<Order>, os': seq<Order>)
    requires OrdersOK(os) && Later(os, os') && |os'| == |os|
    ensures KeepsGuard(os, os') && Firsts(os') == Firsts(os)
  {
    FirstsDrift(os, os');
    GuardedMeans(os');
    if Guarded(os) {
      forall i, j | 0 <= i < j < |os'| ensures UnfilledBefore(os'[i], os'[j]) {
        UnfilledStays(os, os', i, j);
      }
    }
  }

  /** Which of the orders are first orders. */
  function Firsts(os: seq<Order>): set<int> {
    set i | 0 <= i < |os| && os[i].ref.Root?
  }

  lemma FirstsDrift(os: seq<Order>, os': seq<Order>)
    requires Drifted(os, os')
    ensures Firsts(os') == Firsts(os)
  {
    assert forall i | 0 <= i < |os| :: Moves(os[i], os'[i]);
  }

  /** Placing a replacement places no first order. */
  lemma FirstsPlaced(os: seq<Order>, os': seq<Order>, ref: Ref, total: real)
    requires Placed(os, os', ref, total) && ref.Rep?
    ensures Firsts(os') == Firsts(os)
  {
    assert forall i | 0 <= i < |os| :: Moves(os[i], os'[i]);
  }

  /** When the first orders are those from before, whatever was placed is a replacement. */
  lemma NoNewFirsts(os: seq<Order>, os': seq<Order>)
    requires Firsts(os') == Firsts(os)
    ensures forall i | |os| <= i < |os'| :: os'[i].ref.Rep?
  {
    forall i | |os| <= i < |os'| ensures os'[i].ref.Rep? {
      assert i !in Firsts(os);
    }
  }

  /** Two orders of the same ref do not both change any more. */
  lemma UnfilledStays(os: seq<Order>, os': seq<Order>, i: nat, j: nat)
    requires OrdersOK(os) && Later(os, os') && Guarded(os) && i < j < |os|
    ensures UnfilledBefore(os'[i], os'[j])
  {
    GuardedMeans(os);
    assert Moves(os[i], os'[i]) && Moves(os[j], os'[j]) && Coexist(os[i], os[j]) && UnfilledBefore(os[i], os[j]);
  }

  /** First orders repeat no ref. */
  lemma GuardedFirsts(os: seq<Order>, os': seq<Order>)
    requires OrdersOK(os) && OrdersOK(os') && Later(os, os')
    requires forall i | |os| <= i < |os'| :: os'[i].ref.Root?
    ensures KeepsGuard(os, os')
  {
    GuardedMeans(os');
    if Guarded(os) {
      forall i, j | 0 <= i < j < |os'| ensures UnfilledBefore(os'[i], os'[j]) {
        if j < |os| {
          UnfilledStays(os, os', i, j);
        } else {
          assert Coexist(os'[i], os'[j]);
        }
      }
    }
  }

  /** A replacement placed while its ref is unused. */
  lemma GuardedPlaces(os: seq<Order>, os': seq<Order>, ref: Ref, total: real)
    requires OrdersOK(os) && Placed(os, os', ref, total) && Unused(os, ref)
    ensures KeepsGuard(os, os')
  {
    GuardedMeans(os');
    UnusedMeans(os, ref);
    if Guarded(os) {
      forall i, j | 0 <= i < j < |os'| ensures UnfilledBefore(os'[i], os'[j]) {
        if j < |os| {
          UnfilledStays(os, os', i, j);
        } else {
          assert Moves(os[i], os'[i]);
        }
      }
    }
  }

  /** While every replacement is guarded, a key's family never executes more than its row allows. */
  lemma FillsStayWithinRow(l: Ledger, os: seq<Order>, key: Ref)
    requires Inv(l, os) && key in l && Guarded(os)
    ensures FilledShares(os, key) <= Max(l[key].quantity, 0.0)
  {
    GuardedMeans(os);
    forall i, j | 0 <= i < j < |os| ensures !(ExecutedReplacement(os[i], key) && ExecutedReplacement(os[j], key)) {
      assert UnfilledBefore(os[i], os[j]);
    }
    OnlyTwiceExceeds(l, os, key);
  }

  lemma {:induction false} SameShares(a: seq<Order>, b: seq<Order>, key: Ref)
    requires |a| == |b|
    requires forall i | 0 <= i < |a| :: a[i].ref == b[i].ref && (Family(a[i], key) ==> a[i].filled == b[i].filled)
    ensures FilledShares(a, key) == FilledShares(b, key)
  {
    if a != [] {
      SameShares(a[..|a| - 1], b[..|b| - 1], key);
    }
  }

  lemma OriginalAndReserved(os: seq<Order>, key: Ref, o: nat)
    requires OrdersOK(os) && key.Root? && o < |os| && os[o].ref == key
    ensures FilledShares(os, key) == ReservedShares(os, key) + os[o].filled
  {
    forall i | InFamily(os, key, i) ensures os[i].ref == key || os[i].ref == Rep(key, 1) {
      FamilyHasTwoRefs(os, key, i);
    }
    forall i, j | 0 <= i < j < |os| && os[i].ref == key ensures os[j].ref != key {
      assert Coexist(os[i], os[j]);
    }
    SharesSplit(os, key);
  }

  /** Resuming the replace of a cancelled original for everything it left: over every placement and
      everything that can happen afterwards, the family stays within the original's quantity exactly
      when no executed share carried the reserved ref before. */
  lemma ResumeStaysWithinExactly(os: seq<Order>, key: Ref, o: nat, total: real)
    requires OrdersOK(os) && key.Root? && o < |os| && os[o].ref == key && IsCancelled(os[o].status)
    requires NoneLive(os, Rep(key, 1)) && total == os[o].total - os[o].filled
    ensures (forall os', os'' | Placed(os, os', Rep(key, 1), total) && Drifted(os', os'') :: FilledShares(os'', key) <= os[o].total)
            <==> ReservedShares(os, key) == 0.0
  {
    OriginalAndReserved(os, key, o);
    ReservedNonNegative(os, key);
    OneOriginalDone(os, key, o);
    if ReservedShares(os, key) == 0.0 {
      forall os', os'' | Placed(os, os', Rep(key, 1), total) && Drifted(os', os'') ensures FilledShares(os'', key) <= os[o].total {
        SharesAfterPlacing(os, os', os'', key, total);
      }
    } else {
      var os' := FillsAtOnce(os, key, o, total);
    }
  }

  /** The replacement may fill whole, and at once. */
  lemma FillsAtOnce(os: seq<Order>, key: Ref, o: nat, total: real) returns (os': seq<Order>)
    requires OrdersOK(os) && key.Root? && o < |os| && os[o].ref == key && IsCancelled(os[o].status)
    requires NoneLive(os, Rep(key, 1)) && total == os[o].total - os[o].filled
    ensures Placed(os, os', Rep(key, 1), total) && Drifted(os', os')
    ensures FilledShares(os', key) == FilledShares(os, key) + total
  {
    os' := os + [Order(Rep(key, 1), total, Filled, total)];
    assert Sound(os[o]);
    LaterReflexive(os);
    assert Placed(os, os', Rep(key, 1), total) && Drifted(os', os');
    OneOriginalDone(os, key, o);
    SharesAfterPlacing(os, os', os', key, total);
  }

  lemma OneOriginalDone(os: seq<Order>, key: Ref, o: nat)
    requires OrdersOK(os) && key.Root? && o < |os| && os[o].ref == key && IsCancelled(os[o].status)
    ensures forall i | 0 <= i < |os| && os[i].ref == key :: IsDone(os[i].status)
  {
    forall i | 0 <= i < |os| && os[i].ref == key ensures i == o {
      OneOriginal(os, key, i, o);
    }
  }

  lemma SharesAfterPlacing(os: seq<Order>, os': seq<Order>, os'': seq<Order>, key: Ref, total: real)
    requires OrdersOK(os) && key.Root? && NoneLive(os, Rep(key, 1))
    requires forall i | 0 <= i < |os| && os[i].ref == key :: IsDone(os[i].status)
    requires Placed(os, os', Rep(key, 1), total) && Drifted(os', os'')
    ensures FilledShares(os'', key) == FilledShares(os, key) + os''[|os|].filled <= FilledShares(os, key) + total
  {
    var prefix := os''[..|os|];
    forall i | 0 <= i < |os| ensures os[i].ref == prefix[i].ref && (Family(os[i], key) ==> os[i].filled == prefix[i].filled) {
      assert Moves(os[i], os'[i]) && Moves(os'[i], os''[i]);
      if Family(os[i], key) {
        FamilyHasTwoRefs(os, key, i);
      }
    }
    SameShares(os, prefix, key);
    assert Moves(os'[|os|], os''[|os|]) && RootOf(Rep(key, 1)) == RootOf(key) == key;
  }
}
