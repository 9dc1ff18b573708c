/** The text of an orderRef (src/poma/order_lifecycle.py, build_order_ref) and how recovery reads it
    back (src/poma/execution_manager.py, _restore_untracked_broker_orders). */
module OrderRef {
  import opened Models

  // ---- splitting at colons ----

  function Split(s: string): (parts: seq<string>)
    ensures parts != []
  {
    if s == "" then [""]
    else if s[0] == ':' then [""] + Split(s[1..])
    else
      var rest := Split(s[1..]);
      [[s[0]] + rest[0]] + rest[1..]
  }

  function Join(parts: seq<string>): string
    requires parts != []
  {
    if |parts| == 1 then parts[0] else parts[0] + ":" + Join(parts[1..])
  }

  predicate ColonFree(s: string) {
    ':' !in s
  }

  lemma {:induction false} SplitColonFree(s: string)
    requires ColonFree(s)
    ensures Split(s) == [s]
  {
    if s != "" {
      SplitColonFree(s[1..]);
      assert s == [s[0]] + s[1..];
    }
  }

  lemma {:induction false} SplitAppend(a: string, b: string)
    ensures Split(a + ":" + b) == Split(a) + Split(b)
  {
    var s := a + ":" + b;
    if a == "" {
      assert s[1..] == b;
    } else {
      assert s[1..] == a[1..] + ":" + b;
      SplitAppend(a[1..], b);
    }
  }

  lemma JoinHead(c: string, parts: seq<string>)
    requires parts != []
    ensures Join([c + parts[0]] + parts[1..]) == c + Join(parts)
  {
    var longer := [c + parts[0]] + parts[1..];
    assert longer[1..] == parts[1..];
  }

  lemma {:induction false} JoinSplit(s: string)
    ensures Join(Split(s)) == s
  {
    if s != "" {
      var rest := Split(s[1..]);
      JoinSplit(s[1..]);
      if s[0] == ':' {
        assert ([""] + rest)[1..] == rest;
      } else {
        JoinHead([s[0]], rest);
      }
      assert s == [s[0]] + s[1..];
    }
  }

  // ---- numbers ----

  function Digit(d: nat): char
    requires d < 10
  {
    ['0', '1', '2', '3', '4', '5', '6', '7', '8', '9'][d]
  }

  function Decimal(n: nat): string {
    if n < 10 then [Digit(n)] else Decimal(n / 10) + [Digit(n % 10)]
  }

  predicate IsDigits(s: string) {
    s != "" && forall i | 0 <= i < |s| :: '0' <= s[i] <= '9'
  }

  function Value(s: string): nat
    requires s == "" || IsDigits(s)
  {
    if s == "" then 0 else 10 * Value(s[..|s| - 1]) + (s[|s| - 1] as int - '0' as int)
  }

  lemma {:induction false} DecimalValue(n: nat)
    ensures IsDigits(Decimal(n)) && ColonFree(Decimal(n)) && Value(Decimal(n)) == n
  {
    if n >= 10 {
      DecimalValue(n / 10);
      assert Decimal(n)[..|Decimal(n)| - 1] == Decimal(n / 10);
    } else {
      assert Decimal(n)[..0] == "";
    }
  }

  // ---- printing and reading ----

  function SideText(side: Side): string {
    if side == BUY then "BUY" else "SELL"
  }

  const PREFIX := "poma"

  function Print(ref: Ref): string {
    match ref
    case Root(run, index, ticker, side) =>
      PREFIX + ":" + (run + ":" + (Decimal(index) + ":" + (ticker + ":" + SideText(side))))
    case Rep(base, n) => Print(base) + ":" + ("r" + Decimal(n))
  }

  predicate IsReplacementMark(part: string) {
    part != "" && part[0] == 'r' && IsDigits(part[1..])
  }

  /** The ref without a trailing replacement mark. */
  function Strip(s: string): string {
    var parts := Split(s);
    if |parts| >= 2 && IsReplacementMark(parts[|parts| - 1]) then Join(parts[..|parts| - 1]) else s
  }

  /** The run of an order the ledger does not know, if its ref is one of ours for its ticker and side. */
  function ReadRun(s: string, ticker: string, side: Side): Option<string> {
    var parts := Split(Strip(s));
    var n := |parts|;
    if n < 5 || parts[0] != PREFIX || !IsDigits(parts[n - 3]) || parts[n - 2] != ticker || parts[n - 1] != SideText(side)
       || Join(parts[1..n - 3]) == ""
    then None
    else Some(Join(parts[1..n - 3]))
  }

  lemma SplitRoot(run: string, index: nat, ticker: string, side: Side)
    requires ColonFree(ticker)
    ensures Split(Print(Root(run, index, ticker, side))) == [PREFIX] + Split(run) + [Decimal(index), ticker, SideText(side)]
  {
    SplitTail(index, ticker, side);
    SplitColonFree(PREFIX);
    var tail := Decimal(index) + ":" + (ticker + ":" + SideText(side));
    SplitAppend(run, tail);
    SplitAppend(PREFIX, run + ":" + tail);
    assert Print(Root(run, index, ticker, side)) == PREFIX + ":" + (run + ":" + tail);
  }

  lemma SplitTail(index: nat, ticker: string, side: Side)
    requires ColonFree(ticker)
    ensures Split(Decimal(index) + ":" + (ticker + ":" + SideText(side))) == [Decimal(index), ticker, SideText(side)]
  {
    DecimalValue(index);
    SplitColonFree(Decimal(index));
    SplitColonFree(ticker);
    SplitColonFree(SideText(side));
    SplitAppend(ticker, SideText(side));
    SplitAppend(Decimal(index), ticker + ":" + SideText(side));
  }

  /** Stripping gives an original's ref back, from itself and from any replacement of it. */
  lemma StripUndoesReplacement(run: string, index: nat, ticker: string, side: Side, n: nat)
    requires ColonFree(ticker)
    ensures var root := Root(run, index, ticker, side);
            Strip(Print(root)) == Print(root) && Strip(Print(Rep(root, n))) == Print(root)
  {
    var root := Root(run, index, ticker, side);
    SplitRoot(run, index, ticker, side);
    DecimalValue(n);
    var mark := "r" + Decimal(n);
    SplitColonFree(mark);
    SplitAppend(Print(root), mark);
    JoinSplit(Print(root));
    assert mark[1..] == Decimal(n);
    assert (Split(Print(root)) + [mark])[..|Split(Print(root))|] == Split(Print(root));
  }

  /** Reading undoes printing: for a non-empty run, colons allowed, and a colon-free ticker, the run
      comes back exactly when ticker and side are the printed ones, also from a replacement. */
  lemma ReadUndoesPrint(run: string, index: nat, ticker: string, side: Side, n: nat, ticker': string, side': Side)
    requires run != "" && ColonFree(ticker)
    ensures var root := Root(run, index, ticker, side);
            var read := if ticker' == ticker && side' == side then Some(run) else None;
            ReadRun(Print(root), ticker', side') == read && ReadRun(Print(Rep(root, n)), ticker', side') == read
  {
    var root := Root(run, index, ticker, side);
    StripUndoesReplacement(run, index, ticker, side, n);
    SplitRoot(run, index, ticker, side);
    DecimalValue(index);
    JoinSplit(run);
    var parts := Split(Print(root));
    assert parts[1..|parts| - 3] == Split(run);
  }

  predicate Printable(ref: Ref) {
    match ref
    case Root(_, _, ticker, _) => ColonFree(ticker)
    case Rep(base, _) => base.Root? && ColonFree(base.ticker)
  }

  /** The text determines the orderRef. */
  lemma PrintInjective(a: Ref, b: Ref)
    requires Printable(a) && Printable(b) && Print(a) == Print(b)
    ensures a == b
  {
    var ra, rb := if a.Root? then a else a.base, if b.Root? then b else b.base;
    StripsToRoot(a);
    StripsToRoot(b);
    RootInjective(ra, rb);
    if a.Rep? && b.Rep? {
      MarkInjective(Print(ra), a.n, b.n);
    }
  }

  lemma StripsToRoot(ref: Ref)
    requires Printable(ref)
    ensures Strip(Print(ref)) == Print(if ref.Root? then ref else ref.base)
  {
    var root := if ref.Root? then ref else ref.base;
    StripUndoesReplacement(root.run, root.index, root.ticker, root.side, if ref.Rep? then ref.n else 0);
  }

  lemma AfterMark(s: string, t: string)
    ensures (s + ":" + ("r" + t))[|s| + 2..] == t
  {
  }

  lemma MarkInjective(s: string, n: nat, m: nat)
    requires s + ":" + ("r" + Decimal(n)) == s + ":" + ("r" + Decimal(m))
    ensures n == m
  {
    DecimalValue(n);
    DecimalValue(m);
    AfterMark(s, Decimal(n));
    AfterMark(s, Decimal(m));
  }

  lemma RootInjective(a: Ref, b: Ref)
    requires a.Root? && b.Root? && ColonFree(a.ticker) && ColonFree(b.ticker) && Print(a) == Print(b)
    ensures a == b
  {
    SplitRoot(a.run, a.index, a.ticker, a.side);
    SplitRoot(b.run, b.index, b.ticker, b.side);
    DecimalValue(a.index);
    DecimalValue(b.index);
    JoinSplit(a.run);
    JoinSplit(b.run);
    var parts := Split(Print(a));
    var n := |parts|;
    assert parts[1..n - 3] == Split(a.run) && parts[1..n - 3] == Split(b.run);
    assert parts[n - 3] == Decimal(a.index) && parts[n - 3] == Decimal(b.index);
    assert parts[n - 2] == a.ticker && parts[n - 2] == b.ticker && parts[n - 1] == SideText(a.side) && parts[n - 1] == SideText(b.side);
  }

  // ---- families by prefix ----

  predicate IsPrefix(a: string, b: string) {
    |a| <= |b| && b[..|a|] == a
  }

  /** Splitting a prefix: all parts but the last agree, and the last is a prefix of its counterpart. */
  lemma {:induction false} SplitPrefix(a: string, b: string)
    requires IsPrefix(a, b)
    ensures |Split(a)| <= |Split(b)|
    ensures forall i | 0 <= i < |Split(a)| - 1 :: Split(a)[i] == Split(b)[i]
    ensures IsPrefix(Split(a)[|Split(a)| - 1], Split(b)[|Split(a)| - 1])
  {
    if a != "" {
      assert b[0] == a[0] && b[1..][..|a| - 1] == a[1..];
      SplitPrefix(a[1..], b[1..]);
      SplitStep(a);
      SplitStep(b);
    }
  }

  lemma SplitStep(s: string)
    requires s != ""
    ensures var rest := Split(s[1..]);
            if s[0] == ':' then |Split(s)| == |rest| + 1 && Split(s)[0] == "" && forall i | 0 <= i < |rest| :: Split(s)[i + 1] == rest[i]
            else |Split(s)| == |rest| && Split(s)[0] == [s[0]] + rest[0] && forall i | 1 <= i < |rest| :: Split(s)[i] == rest[i]
  {
  }

  function RootRef(ref: Ref): Ref {
    if ref.Rep? then ref.base else ref
  }

  /** An orderRef with a colon-free run id and ticker. */
  predicate PlainRef(ref: Ref) {
    RootRef(ref).Root? && ColonFree(RootRef(ref).run) && ColonFree(RootRef(ref).ticker)
  }

  function Parts(root: Ref): seq<string>
    requires root.Root?
  {
    [PREFIX, root.run, Decimal(root.index), root.ticker, SideText(root.side)]
  }

  lemma SplitPlain(ref: Ref)
    requires PlainRef(ref)
    ensures |Split(Print(ref))| >= 5 && Split(Print(ref))[..5] == Parts(RootRef(ref))
    ensures ref.Root? ==> |Split(Print(ref))| == 5
  {
    var root := RootRef(ref);
    SplitRoot(root.run, root.index, root.ticker, root.side);
    SplitColonFree(root.run);
    if ref.Rep? {
      SplitAppend(Print(root), "r" + Decimal(ref.n));
    }
  }

  lemma PartsInjective(a: Ref, b: Ref)
    requires a.Root? && b.Root? && Parts(a)[..4] == Parts(b)[..4] && IsPrefix(Parts(a)[4], Parts(b)[4])
    ensures a == b
  {
    assert Parts(a)[..4][1] == a.run && Parts(b)[..4][1] == b.run;
    assert Parts(a)[..4][2] == Decimal(a.index) && Parts(b)[..4][2] == Decimal(b.index);
    assert Parts(a)[..4][3] == a.ticker && Parts(b)[..4][3] == b.ticker;
    DecimalValue(a.index);
    DecimalValue(b.index);
    assert SideText(a.side)[0] == SideText(b.side)[0];
  }

  /** With colon-free run ids, the refs that start with a ledger key are that key's family. */
  lemma PrefixIsFamily(key: Ref, ref: Ref)
    requires key.Root? && PlainRef(key) && PlainRef(ref)
    ensures IsPrefix(Print(key), Print(ref)) <==> RootRef(ref) == key
  {
    SplitPlain(key);
    SplitPlain(ref);
    if IsPrefix(Print(key), Print(ref)) {
      SplitPrefix(Print(key), Print(ref));
      var a, b := Split(Print(key)), Split(Print(ref));
      assert a == Parts(key) && b[..5] == Parts(RootRef(ref));
      assert forall i | 0 <= i < 4 :: Parts(key)[i] == b[..5][i];
      PartsInjective(key, RootRef(ref));
    }
  }

  /** With colons in run ids that is not so: another run's ref can start with this run's key. */
  lemma PrefixAcrossRuns()
    ensures var key := Root("a", 0, "SPY", BUY);
            var other := Root("a:0:SPY:BUY", 1, "SPY", BUY);
            IsPrefix(Print(key), Print(other)) && other.run != key.run
  {
    var key, other := Root("a", 0, "SPY", BUY), Root("a:0:SPY:BUY", 1, "SPY", BUY);
    assert Decimal(0) == "0" && Decimal(1) == "1";
    assert Print(key) == "poma:a:0:SPY:BUY";
    assert Print(other) == "poma:a:0:SPY:BUY:1:SPY:BUY";
  }
}
