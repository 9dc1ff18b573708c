/** Proving a fill from executions alone (src/poma/ibkr_order_history.py, _execution_proven_fills).
    Symbols and sides are taken as already upper-cased and parsed. */
module ExecutionHistory {
  import opened Models
  import opened OrderLifecycle

  /** Share totals this close to the ordered quantity prove a complete fill. */
  const FILL_EPS := 0.000001

  datatype Execution = Execution(
    permId: nat,
    execId: string,
    symbol: string,
    side: Option<Side>,
    account: string,
    shares: real,
    price: real)
  {
    function Value(): real {
      shares * price
    }
  }

  datatype ProvenFill = ProvenFill(ref: Ref, orderId: Option<nat>, permId: nat, ticker: string, side: Side, filled: real, average: real)

  /** `DividesByZero` is the exception of an average over no shares. */
  datatype Verdict = Unproven | Proven(fill: ProvenFill) | DividesByZero

  predicate Agrees(x: Execution, e: Entry, account: Option<string>) {
    x.symbol == e.ticker && x.side == Some(e.side) && (account.Some? ==> x.account == account.value)
  }

  /** The executions on one permId, in order. */
  function OnPerm(xs: seq<Execution>, perm: nat): seq<Execution> {
    if xs == [] then []
    else OnPerm(xs[..|xs| - 1], perm) + (if xs[|xs| - 1].permId == perm then [xs[|xs| - 1]] else [])
  }

  predicate HasId(xs: seq<Execution>, id: string) {
    exists i :: 0 <= i < |xs| && xs[i].execId == id
  }

  /** The first execution of each id. */
  function Distinct(xs: seq<Execution>): seq<Execution> {
    if xs == [] then []
    else
      var before, last := Distinct(xs[..|xs| - 1]), xs[|xs| - 1];
      before + (if HasId(before, last.execId) then [] else [last])
  }

  function Total(xs: seq<real>): real {
    if xs == [] then 0.0 else Total(xs[..|xs| - 1]) + xs[|xs| - 1]
  }

  function SharesOf(xs: seq<Execution>): seq<real> {
    seq(|xs|, i requires 0 <= i < |xs| => xs[i].shares)
  }

  function ValuesOf(xs: seq<Execution>): seq<real> {
    seq(|xs|, i requires 0 <= i < |xs| => xs[i].Value())
  }

  function Shares(xs: seq<Execution>): real {
    Total(SharesOf(xs))
  }

  function Notional(xs: seq<Execution>): real {
    Total(ValuesOf(xs))
  }

  /** Only a row that was never replaced, whose permId the broker has assigned. */
  predicate Eligible(e: Entry, completedRefs: set<Ref>) {
    && e.permId.Some? && e.permId.value != 0 && e.replaceCount == 0 && e.replacement.None?
    && e.orderRef !in completedRefs && e.quantity > 0.0
  }

  /** No missing or contradictory identity. */
  predicate Coherent(e: Entry, fills: seq<Execution>, account: Option<string>) {
    fills != [] && forall i | 0 <= i < |fills| :: Agrees(fills[i], e, account) && fills[i].execId != ""
  }

  predicate Priced(fills: seq<Execution>) {
    forall i | 0 <= i < |fills| :: fills[i].price > 0.0
  }

  predicate Complete(e: Entry, fills: seq<Execution>, account: Option<string>) {
    Coherent(e, fills, account) && Abs(Shares(Distinct(fills)) - e.quantity) <= FILL_EPS && Priced(Distinct(fills))
  }

  function Judge(e: Entry, fills: seq<Execution>, account: Option<string>): Verdict
    requires e.permId.Some?
  {
    if !Complete(e, fills, account) then Unproven
    else if Shares(Distinct(fills)) == 0.0 then DividesByZero
    else Proven(ProvenFill(e.orderRef, e.orderId, e.permId.value, e.ticker, e.side, e.quantity,
                           Notional(Distinct(fills)) / Shares(Distinct(fills))))
  }

  function VerdictOn(e: Entry, xs: seq<Execution>, account: Option<string>, completedRefs: set<Ref>): Verdict {
    if !Eligible(e, completedRefs) then Unproven else Judge(e, OnPerm(xs, e.permId.value), account)
  }

  /** The proofs of a list of rows, in order, up to the first exception. */
  function Verdicts(rows: seq<Entry>, xs: seq<Execution>, account: Option<string>, completedRefs: set<Ref>): Exit<seq<ProvenFill>> {
    if rows == [] then Ok([])
    else
      var before := Verdicts(rows[..|rows| - 1], xs, account, completedRefs);
      if !before.Ok? then before
      else
        Extended(before.value, VerdictOn(rows[|rows| - 1], xs, account, completedRefs))
  }

  // ---- the loops ----

  method FillsByPerm(xs: seq<Execution>) returns (byPerm: map<nat, seq<Execution>>)
    ensures forall p :: OnPerm(xs, p) == if p in byPerm then byPerm[p] else []
    ensures forall p | p in byPerm :: byPerm[p] != []
  {
    byPerm := map[];
    for i := 0 to |xs|
      invariant forall p :: OnPerm(xs[..i], p) == if p in byPerm then byPerm[p] else []
      invariant forall p | p in byPerm :: byPerm[p] != []
    {
      var x := xs[i];
      assert xs[..i + 1][..i] == xs[..i];
      byPerm := byPerm[x.permId := (if x.permId in byPerm then byPerm[x.permId] else []) + [x]];
    }
    assert xs[..|xs|] == xs;
  }

  /** The distinct executions, or none if one has no id. */
  method UniqueFills(fills: seq<Execution>) returns (unique: seq<Execution>)
    ensures unique == if forall i | 0 <= i < |fills| :: fills[i].execId != "" then Distinct(fills) else []
  {
    unique := [];
    for i := 0 to |fills|
      invariant unique == Distinct(fills[..i]) && forall j | 0 <= j < i :: fills[j].execId != ""
    {
      assert fills[..i + 1][..i] == fills[..i];
      if fills[i].execId == "" {
        return [];
      }
      if !HasId(unique, fills[i].execId) {
        unique := unique + [fills[i]];
      }
    }
    assert fills[..|fills|] == fills;
  }

  lemma SumsAppend(xs: seq<Execution>, x: Execution)
    ensures Shares(xs + [x]) == Shares(xs) + x.shares
    ensures Notional(xs + [x]) == Notional(xs) + x.Value()
  {
    var all := xs + [x];
    assert SharesOf(all)[..|xs|] == SharesOf(xs) && ValuesOf(all)[..|xs|] == ValuesOf(xs);
  }

  method Totals(fills: seq<Execution>) returns (filled: real, notional: real)
    ensures filled == Shares(fills) && notional == Notional(fills)
  {
    filled, notional := 0.0, 0.0;
    for i := 0 to |fills|
      invariant filled == Shares(fills[..i]) && notional == Notional(fills[..i])
    {
      SumsAppend(fills[..i], fills[i]);
      assert fills[..i + 1] == fills[..i] + [fills[i]];
      filled, notional := filled + fills[i].shares, notional + fills[i].Value();
    }
    assert fills[..|fills|] == fills;
  }

  method JudgeFills(e: Entry, fills: seq<Execution>, account: Option<string>) returns (verdict: Verdict)
    requires e.permId.Some?
    ensures verdict == Judge(e, fills, account)
  {
    if fills == [] || exists i :: 0 <= i < |fills| && !Agrees(fills[i], e, account) {
      return Unproven;
    }
    var unique := UniqueFills(fills);
    if unique == [] {
      DistinctIsEmpty(fills);
      return Unproven;
    }
    var filled, notional := Totals(unique);
    if Abs(filled - e.quantity) > FILL_EPS || !Priced(unique) {
      return Unproven;
    }
    if filled == 0.0 {
      return DividesByZero;
    }
    verdict := Proven(ProvenFill(e.orderRef, e.orderId, e.permId.value, e.ticker, e.side, e.quantity, notional / filled));
  }

  lemma DistinctIsEmpty(fills: seq<Execution>)
    requires fills != []
    ensures Distinct(fills) != []
  {
    if |fills| > 1 {
      DistinctIsEmpty(fills[..|fills| - 1]);
    }
  }

  /** The first rows' proofs with one more row. */
  function Extended(before: seq<ProvenFill>, verdict: Verdict): Exit<seq<ProvenFill>> {
    match verdict
    case Unproven => Ok(before)
    case DividesByZero => Raised
    case Proven(fill) => Ok(before + [fill])
  }

  lemma VerdictsNext(rows: seq<Entry>, i: nat, xs: seq<Execution>, account: Option<string>, completedRefs: set<Ref>,
                     proofs: seq<ProvenFill>)
    requires i < |rows| && Verdicts(rows[..i], xs, account, completedRefs) == Ok(proofs)
    ensures Verdicts(rows[..i + 1], xs, account, completedRefs) == Extended(proofs, VerdictOn(rows[i], xs, account, completedRefs))
  {
    assert rows[..i + 1][..i] == rows[..i];
  }

  method ExecutionProvenFills(rows: seq<Entry>, xs: seq<Execution>, account: Option<string>, completedRefs: set<Ref>)
    returns (r: Exit<seq<ProvenFill>>)
    ensures r == Verdicts(rows, xs, account, completedRefs)
  {
    var byPerm := FillsByPerm(xs);
    var proofs: seq<ProvenFill> := [];
    for i := 0 to |rows|
      invariant Verdicts(rows[..i], xs, account, completedRefs) == Ok(proofs)
    {
      VerdictsNext(rows, i, xs, account, completedRefs, proofs);
      var verdict := Unproven;
      if Eligible(rows[i], completedRefs) {
        var perm := rows[i].permId.value;
        verdict := JudgeFills(rows[i], if perm in byPerm then byPerm[perm] else [], account);
      }
      assert verdict == VerdictOn(rows[i], xs, account, completedRefs);
      if verdict.DividesByZero? {
        RaisedStays(rows, i + 1, xs, account, completedRefs);
        return Raised;
      }
      if verdict.Proven? {
        proofs := proofs + [verdict.fill];
      }
    }
    assert rows[..|rows|] == rows;
    r := Ok(proofs);
  }

  lemma {:induction false} RaisedStays(rows: seq<Entry>, n: nat, xs: seq<Execution>, account: Option<string>,
                                       completedRefs: set<Ref>)
    requires n <= |rows| && Verdicts(rows[..n], xs, account, completedRefs).Raised?
    ensures Verdicts(rows, xs, account, completedRefs).Raised?
  {
    if n < |rows| {
      assert rows[..|rows| - 1][..n] == rows[..n];
      RaisedStays(rows[..|rows| - 1], n, xs, account, completedRefs);
    } else {
      assert rows[..n] == rows;
    }
  }

  /** The verdicts on the rows, one by one. */
  function Judged(rows: seq<Entry>, xs: seq<Execution>, account: Option<string>, completedRefs: set<Ref>): (verdicts: seq<Verdict>)
    ensures |verdicts| == |rows|
  {
    seq(|rows|, i requires 0 <= i < |rows| => VerdictOn(rows[i], xs, account, completedRefs))
  }

  /** The proofs are exactly those of the rows, unless an average over no shares raises. */
  lemma {:induction false} VerdictsExactly(rows: seq<Entry>, xs: seq<Execution>, account: Option<string>,
                                           completedRefs: set<Ref>, fill: ProvenFill)
    ensures Verdicts(rows, xs, account, completedRefs) == Raised || Verdicts(rows, xs, account, completedRefs).Ok?
    ensures Verdicts(rows, xs, account, completedRefs).Raised? <==> DividesByZero in Judged(rows, xs, account, completedRefs)
    ensures Verdicts(rows, xs, account, completedRefs).Ok? ==>
              (fill in Verdicts(rows, xs, account, completedRefs).value <==> Proven(fill) in Judged(rows, xs, account, completedRefs))
  {
    if rows != [] {
      var n := |rows| - 1;
      VerdictsExactly(rows[..n], xs, account, completedRefs, fill);
      var last := VerdictOn(rows[n], xs, account, completedRefs);
      JudgedLast(rows, xs, account, completedRefs, last);
      var before := Verdicts(rows[..n], xs, account, completedRefs);
      if before.Ok? {
        ExtendedMembers(before.value, last, fill);
      }
    }
  }

  lemma JudgedLast(rows: seq<Entry>, xs: seq<Execution>, account: Option<string>, completedRefs: set<Ref>,
                   last: Verdict)
    requires rows != [] && last == VerdictOn(rows[|rows| - 1], xs, account, completedRefs)
    ensures Judged(rows, xs, account, completedRefs) == Judged(rows[..|rows| - 1], xs, account, completedRefs) + [last]
  {
  }

  lemma ExtendedMembers(before: seq<ProvenFill>, verdict: Verdict, fill: ProvenFill)
    ensures Extended(before, verdict).Raised? <==> verdict.DividesByZero?
    ensures Extended(before, verdict) == Raised || Extended(before, verdict).Ok?
    ensures Extended(before, verdict).Ok? ==> (fill in Extended(before, verdict).value <==> fill in before || verdict == Proven(fill))
  {
  }

  // ---- order and repetition do not matter ----

  /** An execution id means one execution. */
  ghost predicate Consistent(xs: seq<Execution>) {
    forall x, y | x in xs && y in xs && x.execId == y.execId :: x == y
  }

  ghost predicate SameMembers(xs: seq<Execution>, ys: seq<Execution>) {
    forall x :: x in xs <==> x in ys
  }

  ghost predicate NoRepeats(xs: seq<Execution>) {
    forall i, j | 0 <= i < j < |xs| :: xs[i] != xs[j]
  }

  lemma {:induction false} OnPermMembers(xs: seq<Execution>, perm: nat)
    ensures forall x :: x in OnPerm(xs, perm) <==> x in xs && x.permId == perm
  {
    if xs != [] {
      OnPermMembers(xs[..|xs| - 1], perm);
      assert xs == xs[..|xs| - 1] + [xs[|xs| - 1]];
    }
  }

  lemma {:induction false} DistinctMembers(xs: seq<Execution>)
    requires Consistent(xs)
    ensures SameMembers(Distinct(xs), xs) && NoRepeats(Distinct(xs))
  {
    if xs != [] {
      var init, last := xs[..|xs| - 1], xs[|xs| - 1];
      assert xs == init + [last];
      DistinctMembers(init);
      if HasId(Distinct(init), last.execId) {
        var i :| 0 <= i < |Distinct(init)| && Distinct(init)[i].execId == last.execId;
        assert Distinct(init)[i] in init;
      } else {
        assert forall i | 0 <= i < |Distinct(init)| :: Distinct(init)[i].execId != last.execId;
      }
    }
  }

  function RemoveAt(xs: seq<Execution>, i: nat): seq<Execution>
    requires i < |xs|
  {
    xs[..i] + xs[i + 1..]
  }

  lemma {:induction false} TotalWithout(xs: seq<real>, i: nat)
    requires i < |xs|
    ensures Total(xs) == Total(xs[..i] + xs[i + 1..]) + xs[i]
  {
    var n := |xs| - 1;
    var rest := xs[..i] + xs[i + 1..];
    if i < n {
      TotalWithout(xs[..n], i);
      assert rest[..n - 1] == xs[..n][..i] + xs[..n][i + 1..] && rest[n - 1] == xs[n];
    } else {
      assert rest == xs[..n];
    }
  }

  lemma SumsWithout(xs: seq<Execution>, i: nat)
    requires i < |xs|
    ensures Shares(xs) == Shares(RemoveAt(xs, i)) + xs[i].shares
    ensures Notional(xs) == Notional(RemoveAt(xs, i)) + xs[i].Value()
  {
    TotalWithout(SharesOf(xs), i);
    TotalWithout(ValuesOf(xs), i);
    assert SharesOf(xs)[..i] + SharesOf(xs)[i + 1..] == SharesOf(RemoveAt(xs, i));
    assert ValuesOf(xs)[..i] + ValuesOf(xs)[i + 1..] == ValuesOf(RemoveAt(xs, i));
  }

  /** Taking out one element, by value. */
  lemma WithoutMembers(xs: seq<Execution>, i: nat)
    requires i < |xs| && NoRepeats(xs)
    ensures NoRepeats(RemoveAt(xs, i)) && forall y :: y in RemoveAt(xs, i) <==> y in xs && y != xs[i]
  {
    var rest := RemoveAt(xs, i);
    forall y | y in rest ensures y in xs && y != xs[i] {
      var j :| 0 <= j < |rest| && rest[j] == y;
      assert y == xs[if j < i then j else j + 1];
    }
    forall y | y in xs && y != xs[i] ensures y in rest {
      var j :| 0 <= j < |xs| && xs[j] == y;
      assert y == rest[if j < i then j else j - 1];
    }
  }

  lemma NoMembers(xs: seq<Execution>)
    ensures (forall x :: x !in xs) ==> xs == []
  {
    if xs != [] {
      assert xs[0] in xs;
    }
  }

  lemma {:induction false} SumsOfMembers(xs: seq<Execution>, ys: seq<Execution>)
    requires NoRepeats(xs) && NoRepeats(ys) && SameMembers(xs, ys)
    ensures Shares(xs) == Shares(ys) && Notional(xs) == Notional(ys)
    decreases |xs|
  {
    if xs == [] {
      NoMembers(ys);
    } else {
      var n := |xs| - 1;
      assert xs[n] in ys;
      var i :| 0 <= i < |ys| && ys[i] == xs[n];
      SumsWithout(ys, i);
      SumsWithout(xs, n);
      WithoutMembers(xs, n);
      WithoutMembers(ys, i);
      SumsOfMembers(RemoveAt(xs, n), RemoveAt(ys, i));
    }
  }

  /** Reordering or repeating executions changes no verdict. */
  lemma VerdictIgnoresOrder(e: Entry, xs: seq<Execution>, ys: seq<Execution>, account: Option<string>,
                            completedRefs: set<Ref>)
    requires Consistent(xs) && SameMembers(xs, ys)
    ensures VerdictOn(e, xs, account, completedRefs) == VerdictOn(e, ys, account, completedRefs)
  {
    if Eligible(e, completedRefs) {
      var a, b := OnPerm(xs, e.permId.value), OnPerm(ys, e.permId.value);
      OnPermMembers(xs, e.permId.value);
      OnPermMembers(ys, e.permId.value);
      DistinctMembers(a);
      DistinctMembers(b);
      SumsOfMembers(Distinct(a), Distinct(b));
      SameJudgement(e, a, b, account);
    }
  }

  lemma SameJudgement(e: Entry, a: seq<Execution>, b: seq<Execution>, account: Option<string>)
    requires e.permId.Some? && SameMembers(a, b) && SameMembers(Distinct(a), Distinct(b))
    requires Shares(Distinct(a)) == Shares(Distinct(b)) && Notional(Distinct(a)) == Notional(Distinct(b))
    ensures Judge(e, a, account) == Judge(e, b, account)
  {
    CompleteSame(e, a, b, account);
    CompleteSame(e, b, a, account);
  }

  lemma CompleteSame(e: Entry, a: seq<Execution>, b: seq<Execution>, account: Option<string>)
    requires SameMembers(a, b) && SameMembers(Distinct(a), Distinct(b)) && Shares(Distinct(a)) == Shares(Distinct(b))
    ensures Complete(e, a, account) ==> Complete(e, b, account)
  {
    assert forall i | 0 <= i < |b| :: b[i] in a;
    assert forall i | 0 <= i < |Distinct(b)| :: Distinct(b)[i] in Distinct(a);
    assert a != [] ==> a[0] in b;
  }

  /** Two different executions under one id do make the order matter. */
  lemma ConflictingIdsMatter(e: Entry, x: Execution, y: Execution)
    requires Eligible(e, {}) && x.permId == y.permId == e.permId.value && x.execId == y.execId != ""
    requires Agrees(x, e, None) && Agrees(y, e, None) && x.price > 0.0 && y.price > 0.0
    requires x.shares == e.quantity && Abs(y.shares - e.quantity) > FILL_EPS
    ensures VerdictOn(e, [x, y], None, {}).Proven? && VerdictOn(e, [y, x], None, {}).Unproven?
  {
    FirstOfIdCounts(e, x, y);
    FirstOfIdCounts(e, y, x);
  }

  /** Of two executions under one id the first is the one that counts. */
  lemma FirstOfIdCounts(e: Entry, x: Execution, y: Execution)
    requires Eligible(e, {}) && x.permId == y.permId == e.permId.value && x.execId == y.execId != ""
    requires Agrees(x, e, None) && Agrees(y, e, None) && x.price > 0.0
    ensures VerdictOn(e, [x, y], None, {}).Proven? || VerdictOn(e, [x, y], None, {}).DividesByZero?
            <==> Abs(x.shares - e.quantity) <= FILL_EPS
    ensures x.shares != 0.0 ==> !VerdictOn(e, [x, y], None, {}).DividesByZero?
  {
    TwoOnOneId(x, y);
    OneExecution(x);
  }

  /** Coherent and priced executions prove a fill exactly when their shares are the ordered ones. */
  lemma ProvenExactly(e: Entry, fills: seq<Execution>, account: Option<string>, total: real)
    requires e.permId.Some? && Coherent(e, fills, account) && Priced(Distinct(fills))
    requires Shares(Distinct(fills)) == total > 0.0
    ensures Judge(e, fills, account).Proven? <==> Abs(total - e.quantity) <= FILL_EPS
  {
  }

  /** The execution at a place is the first with its id. */
  predicate FirstOfId(xs: seq<Execution>, k: nat, y: Execution) {
    k < |xs| && xs[k] == y && forall m | 0 <= m < k :: xs[m].execId != y.execId
  }

  /** Every id counts once, by its first execution. */
  lemma {:induction false} DistinctIsFirsts(xs: seq<Execution>)
    ensures forall i, j | 0 <= i < j < |Distinct(xs)| :: Distinct(xs)[i].execId != Distinct(xs)[j].execId
    ensures forall k | 0 <= k < |xs| :: HasId(Distinct(xs), xs[k].execId)
    ensures forall y | y in Distinct(xs) :: exists k :: FirstOfId(xs, k, y)
  {
    if xs != [] {
      var init, last := xs[..|xs| - 1], xs[|xs| - 1];
      DistinctIsFirsts(init);
      forall y | y in Distinct(xs) ensures exists k :: FirstOfId(xs, k, y) {
        if y in Distinct(init) {
          var k: nat :| FirstOfId(init, k, y);
          assert FirstOfId(xs, k, y);
        } else {
          forall m | 0 <= m < |init| ensures xs[m].execId != last.execId {
            assert HasId(Distinct(init), init[m].execId);
          }
          assert FirstOfId(xs, |init|, last);
        }
      }
      KeepsIds(init, last, xs);
    }
  }

  lemma KeepsIds(init: seq<Execution>, last: Execution, xs: seq<Execution>)
    requires xs == init + [last] && forall k | 0 <= k < |init| :: HasId(Distinct(init), init[k].execId)
    ensures forall k | 0 <= k < |xs| :: HasId(Distinct(xs), xs[k].execId)
  {
    assert xs[..|init|] == init;
    var before, after := Distinct(init), Distinct(xs);
    assert forall i | 0 <= i < |before| :: after[i] == before[i];
    forall k | 0 <= k < |xs| ensures HasId(after, xs[k].execId) {
      if k < |init| {
        var i :| 0 <= i < |before| && before[i].execId == init[k].execId;
        assert after[i].execId == xs[k].execId;
      } else if !HasId(before, last.execId) {
        assert after[|before|] == last;
      } else {
        var i :| 0 <= i < |before| && before[i].execId == last.execId;
        assert after[i].execId == xs[k].execId;
      }
    }
  }

  /** There are executions on the permId, and all of them agree on symbol, side and account and have an id. */
  predicate AllIdentified(e: Entry, xs: seq<Execution>, perm: nat, account: Option<string>) {
    && (exists x :: x in xs && x.permId == perm)
    && forall x | x in xs && x.permId == perm ::
         && x.symbol == e.ticker && x.side == Some(e.side) && (account.Some? ==> x.account == account.value)
         && x.execId != ""
  }

  lemma IdentifiedIsCoherent(e: Entry, xs: seq<Execution>, perm: nat, account: Option<string>)
    ensures Coherent(e, OnPerm(xs, perm), account) <==> AllIdentified(e, xs, perm, account)
  {
    var fills := OnPerm(xs, perm);
    OnPermMembers(xs, perm);
    NoMembers(fills);
    assert fills != [] ==> fills[0] in fills;
    assert forall i | 0 <= i < |fills| :: fills[i] in fills;
  }

  lemma PricedByMember(ys: seq<Execution>)
    ensures Priced(ys) <==> forall x | x in ys :: x.price > 0.0
  {
    assert forall i | 0 <= i < |ys| :: ys[i] in ys;
  }

  /** What proves a fill, field by field: a row with an assigned permId, never replaced and not in completed
      history, and identified executions on that permId, whose counted ones have a price and add up to the
      ordered shares. */
  lemma VerdictExactly(e: Entry, xs: seq<Execution>, account: Option<string>, completedRefs: set<Ref>)
    ensures VerdictOn(e, xs, account, completedRefs).Unproven? <==>
              !(&& e.permId.Some? && e.permId.value > 0 && e.replaceCount == 0 && e.replacement.None?
                && e.orderRef !in completedRefs && e.quantity > 0.0
                && AllIdentified(e, xs, e.permId.value, account)
                && (forall x | x in Distinct(OnPerm(xs, e.permId.value)) :: x.price > 0.0)
                && -FILL_EPS <= Shares(Distinct(OnPerm(xs, e.permId.value))) - e.quantity <= FILL_EPS)
    ensures VerdictOn(e, xs, account, completedRefs).Proven? ==>
              var fill, counted := VerdictOn(e, xs, account, completedRefs).fill, Distinct(OnPerm(xs, e.permId.value));
              && fill.ref == e.orderRef && fill.orderId == e.orderId && Some(fill.permId) == e.permId
              && fill.ticker == e.ticker && fill.side == e.side && fill.filled == e.quantity
              && Shares(counted) != 0.0 && fill.average * Shares(counted) == Notional(counted)
  {
    if e.permId.Some? {
      IdentifiedIsCoherent(e, xs, e.permId.value, account);
      PricedByMember(Distinct(OnPerm(xs, e.permId.value)));
      AverageTimes(Notional(Distinct(OnPerm(xs, e.permId.value))), Shares(Distinct(OnPerm(xs, e.permId.value))));
    }
  }

  lemma AverageTimes(notional: real, shares: real)
    ensures shares != 0.0 ==> notional / shares * shares == notional
  {
  }

  lemma OneExecution(x: Execution)
    ensures Shares([x]) == x.shares
  {
    SumsAppend([], x);
    assert [] + [x] == [x];
  }

  lemma TwoOnOneId(x: Execution, y: Execution)
    requires x.permId == y.permId && x.execId == y.execId
    ensures OnPerm([x, y], x.permId) == [x, y] && Distinct([x, y]) == [x]
  {
    assert [x, y][..1] == [x] && [x][..0] == [];
    assert OnPerm([x], x.permId) == [x] && Distinct([x]) == [x];
    assert [x][0].execId == y.execId;
  }

  lemma {:induction false} NotionalBounds(xs: seq<Execution>, low: real, high: real)
    requires forall i | 0 <= i < |xs| :: xs[i].shares >= 0.0 && low <= xs[i].price <= high
    ensures low * Shares(xs) <= Notional(xs) <= high * Shares(xs) && Shares(xs) >= 0.0
  {
    if xs != [] {
      var x, rest := xs[|xs| - 1], xs[..|xs| - 1];
      assert xs == rest + [x];
      NotionalBounds(rest, low, high);
      SumsAppend(rest, x);
      ValueBounds(x, low, high);
      TermBounds(low, high, Shares(rest), x.shares);
    }
  }

  lemma ValueBounds(x: Execution, low: real, high: real)
    requires x.shares >= 0.0 && low <= x.price <= high
    ensures low * x.shares <= x.Value() <= high * x.shares
  {
  }

  lemma TermBounds(low: real, high: real, before: real, shares: real)
    ensures low * (before + shares) == low * before + low * shares
    ensures high * (before + shares) == high * before + high * shares
  {
  }

  /** The average price of a proven fill lies between the lowest and the highest execution price. */
  lemma AverageWithinPrices(e: Entry, fills: seq<Execution>, account: Option<string>, low: real, high: real)
    requires e.permId.Some? && Judge(e, fills, account).Proven?
    requires forall i | 0 <= i < |Distinct(fills)| :: Distinct(fills)[i].shares >= 0.0 && low <= Distinct(fills)[i].price <= high
    ensures low <= Judge(e, fills, account).fill.average <= high
  {
    var notional, shares := Notional(Distinct(fills)), Shares(Distinct(fills));
    NotionalBounds(Distinct(fills), low, high);
    QuotientBounds(low, high, notional, shares);
  }

  lemma QuotientBounds(low: real, high: real, notional: real, shares: real)
    requires shares > 0.0 && low * shares <= notional <= high * shares
    ensures low <= notional / shares <= high
  {
  }
}
