/** trading/runtime/reconciliation.py: comparing a local snapshot with an external one. */
module Reconciliation {
  import opened Prelude
  import opened Ledger
  import opened FillFolds

  datatype Balance = Balance(asset: string, free: real, locked: real) {
    /** Only USDT balances have a value here. */
    function TotalUsdt(): real { if asset == "USDT" then free + locked else 0.0 }
  }

  datatype Held = Held(symbol: string, qty: real, avgEntry: real)

  datatype Thresholds = Thresholds(balanceDiff: real, positionDiff: real, balanceCritical: real,
                                   positionCriticalCount: int)

  datatype Status = OK | BalanceMismatch | PositionMismatch | GlobalPauseRecommended

  datatype Reconciled = Reconciled(status: Status, balanceDiff: real, positionDiffCount: int)

  const DEFAULT_THRESHOLDS := Thresholds(1.0, 0.0001, 10.0, 3)

  const MOCK_BALANCES := [Balance("USDT", 500.0, 0.0)]

  // ----- snapshots by key: the last entry of a key wins -----

  function Totals(bs: seq<Balance>): map<string, real> {
    if |bs| == 0 then map[]
    else Totals(bs[..|bs| - 1])[bs[|bs| - 1].asset := bs[|bs| - 1].TotalUsdt()]
  }

  function Quantities(hs: seq<Held>): map<string, real> {
    if |hs| == 0 then map[] else Quantities(hs[..|hs| - 1])[hs[|hs| - 1].symbol := hs[|hs| - 1].qty]
  }

  function At(m: map<string, real>, k: string): real { if k in m then m[k] else 0.0 }

  function Diff(local: map<string, real>, iface: map<string, real>, k: string): real {
    Abs(At(local, k) - At(iface, k))
  }

  /** The keys on which the two sides differ by more than the tolerance. */
  function Differing(local: map<string, real>, iface: map<string, real>, tolerance: real): set<string> {
    set k | k in local.Keys + iface.Keys && Diff(local, iface, k) > tolerance
  }

  // ----- the result -----

  /** The largest difference among some keys, or zero. */
  ghost predicate IsLargest(m: real, local: map<string, real>, iface: map<string, real>, keys: set<string>) {
    && (forall k :: k in keys ==> Diff(local, iface, k) <= m)
    && (m == 0.0 || exists k :: k in keys && Diff(local, iface, k) == m)
    && m >= 0.0
  }

  function StatusOf(t: Thresholds, balanceMismatch: bool, balanceDiff: real, count: int): Status {
    if balanceMismatch && balanceDiff > t.balanceCritical then GlobalPauseRecommended
    else if count >= t.positionCriticalCount then GlobalPauseRecommended
    else if balanceMismatch then BalanceMismatch
    else if count != 0 then PositionMismatch
    else OK
  }

  ghost predicate IsReconciliation(r: Reconciled, balances: map<string, real>, ifaceBalances: map<string, real>,
                                   positions: map<string, real>, ifacePositions: map<string, real>, t: Thresholds)
  {
    var assets := Differing(balances, ifaceBalances, t.balanceDiff);
    && IsLargest(r.balanceDiff, balances, ifaceBalances, assets)
    && r.positionDiffCount == |Differing(positions, ifacePositions, t.positionDiff)|
    && r.status == StatusOf(t, assets != {}, r.balanceDiff, r.positionDiffCount)
  }

  lemma LargestGrows(m: real, local: map<string, real>, iface: map<string, real>, keys: set<string>, k: string)
    requires IsLargest(m, local, iface, keys)
    ensures IsLargest(Max(m, Diff(local, iface, k)), local, iface, keys + {k})
  {
    assert k in keys + {k};
    if m != 0.0 {
      var j :| j in keys && Diff(local, iface, j) == m;
      assert j in keys + {k};
    }
  }

  /** Visiting one more key of a set. */
  lemma Visited<T>(wanted: set<T>, rest: set<T>, k: T)
    requires k in rest
    ensures wanted - (rest - {k}) == if k in wanted then (wanted - rest) + {k} else wanted - rest
    ensures k !in wanted - rest
    ensures |wanted - (rest - {k})| == |wanted - rest| + if k in wanted then 1 else 0
  {
    assert wanted - (rest - {k}) == if k in wanted then (wanted - rest) + {k} else wanted - rest;
  }

  method CompareBalances(local: map<string, real>, iface: map<string, real>, tolerance: real)
    returns (mismatch: bool, largest: real)
    ensures mismatch <==> Differing(local, iface, tolerance) != {}
    ensures IsLargest(largest, local, iface, Differing(local, iface, tolerance))
  {
    mismatch, largest := false, 0.0;
    var rest := local.Keys + iface.Keys;
    ghost var wanted := Differing(local, iface, tolerance);
    assert wanted - rest == {};
    while rest != {}
      invariant rest <= local.Keys + iface.Keys
      invariant mismatch <==> wanted - rest != {}
      invariant IsLargest(largest, local, iface, wanted - rest)
      decreases |rest|
    {
      var asset :| asset in rest;
      var diff := Diff(local, iface, asset);
      Visited(wanted, rest, asset);
      if diff > tolerance {
        LargestGrows(largest, local, iface, wanted - rest, asset);
        mismatch, largest := true, Max(largest, diff);
      }
      rest := rest - {asset};
    }
    assert wanted - rest == wanted;
  }

  method ComparePositions(local: map<string, real>, iface: map<string, real>, tolerance: real)
    returns (mismatch: bool, count: int)
    ensures count == |Differing(local, iface, tolerance)| && (mismatch <==> count != 0)
  {
    mismatch, count := false, 0;
    var rest := local.Keys + iface.Keys;
    ghost var wanted := Differing(local, iface, tolerance);
    assert wanted <= rest;
    assert wanted - rest == {};
    while rest != {}
      invariant forall k :: k in rest ==> (k in wanted <==> Diff(local, iface, k) > tolerance)
      invariant count == |wanted - rest| && (mismatch <==> count != 0)
      decreases |rest|
    {
      var symbol :| symbol in rest;
      var diff := Diff(local, iface, symbol);
      Visited(wanted, rest, symbol);
      if diff > tolerance { mismatch, count := true, count + 1; }
      rest := rest - {symbol};
    }
    assert wanted - rest == wanted;
  }

  /** Whatever order the two key sets are visited in. */
  method RunReconciliation(balances: seq<Balance>, positions: seq<Held>, ifaceBalances: Option<seq<Balance>>,
                           ifacePositions: Option<seq<Held>>, thresholds: Option<Thresholds>)
    returns (r: Reconciled)
    ensures IsReconciliation(r, Totals(balances), Totals(ifaceBalances.GetOr(MOCK_BALANCES)),
                             Quantities(positions), Quantities(ifacePositions.GetOr([])),
                             thresholds.GetOr(DEFAULT_THRESHOLDS))
  {
    var t := thresholds.GetOr(DEFAULT_THRESHOLDS);
    var balanceMismatch, balanceDiff :=
      CompareBalances(Totals(balances), Totals(ifaceBalances.GetOr(MOCK_BALANCES)), t.balanceDiff);
    var positionMismatch, count :=
      ComparePositions(Quantities(positions), Quantities(ifacePositions.GetOr([])), t.positionDiff);
    var status := if balanceMismatch && balanceDiff > t.balanceCritical then GlobalPauseRecommended
                  else if count >= t.positionCriticalCount then GlobalPauseRecommended
                  else if balanceMismatch then BalanceMismatch
                  else if positionMismatch then PositionMismatch
                  else OK;
    return Reconciled(status, balanceDiff, count);
  }

  // ----- what the result means -----

  /** Two runs over the same snapshots give the same result, and swapping the two sides changes nothing. */
  lemma UniqueAndSymmetric(r: Reconciled, q: Reconciled, balances: map<string, real>, ifaceBalances: map<string, real>,
                           positions: map<string, real>, ifacePositions: map<string, real>, t: Thresholds)
    requires IsReconciliation(r, balances, ifaceBalances, positions, ifacePositions, t)
    requires IsReconciliation(q, ifaceBalances, balances, ifacePositions, positions, t)
             || IsReconciliation(q, balances, ifaceBalances, positions, ifacePositions, t)
    ensures r == q
  {
    assert Differing(balances, ifaceBalances, t.balanceDiff) == Differing(ifaceBalances, balances, t.balanceDiff);
    assert Differing(positions, ifacePositions, t.positionDiff) == Differing(ifacePositions, positions, t.positionDiff);
    forall k ensures Diff(balances, ifaceBalances, k) == Diff(ifaceBalances, balances, k) {}
  }

  lemma {:induction false} OnlyUsdt(bs: seq<Balance>, k: string)
    requires k != "USDT"
    ensures At(Totals(bs), k) == 0.0
  {
    if |bs| != 0 { OnlyUsdt(bs[..|bs| - 1], k); }
  }

  /** With a nonnegative tolerance no other asset can matter: the reported difference is that of USDT when
      it exceeds the tolerance, and zero otherwise. */
  lemma UsdtDecides(r: Reconciled, bs: seq<Balance>, ibs: seq<Balance>, positions: map<string, real>,
                    ifacePositions: map<string, real>, t: Thresholds)
    requires IsReconciliation(r, Totals(bs), Totals(ibs), positions, ifacePositions, t) && t.balanceDiff >= 0.0
    ensures var d := Diff(Totals(bs), Totals(ibs), "USDT");
            r.balanceDiff == (if d > t.balanceDiff then d else 0.0)
            && (Differing(Totals(bs), Totals(ibs), t.balanceDiff) != {} <==> d > t.balanceDiff)
  {
    var assets := Differing(Totals(bs), Totals(ibs), t.balanceDiff);
    forall k | k in assets ensures k == "USDT" {
      if k != "USDT" { OnlyUsdt(bs, k); OnlyUsdt(ibs, k); }
    }
    assert "USDT" !in Totals(bs).Keys + Totals(ibs).Keys ==> Diff(Totals(bs), Totals(ibs), "USDT") == 0.0;
  }

  /** OK means exactly: the USDT totals and every symbol's quantities are within tolerance. */
  lemma OkIff(r: Reconciled, bs: seq<Balance>, ibs: seq<Balance>, positions: map<string, real>,
              ifacePositions: map<string, real>, t: Thresholds)
    requires IsReconciliation(r, Totals(bs), Totals(ibs), positions, ifacePositions, t)
    requires t.balanceDiff >= 0.0 && t.positionDiff >= 0.0
    ensures r.status == OK <==>
            (t.positionCriticalCount > 0
             && Diff(Totals(bs), Totals(ibs), "USDT") <= t.balanceDiff
             && forall k :: Diff(positions, ifacePositions, k) <= t.positionDiff)
  {
    UsdtDecides(r, bs, ibs, positions, ifacePositions, t);
    var symbols := Differing(positions, ifacePositions, t.positionDiff);
    assert symbols == {} <==> |symbols| == 0;
    forall k ensures Diff(positions, ifacePositions, k) > t.positionDiff <==> k in symbols {}
  }

  /** The two USDT totals decide, and the number of symbols out of tolerance: a global pause is recommended exactly
      if the difference exceeds the tolerance and the critical amount, or the number reaches the critical count;
      below that a balance difference goes before a position difference. */
  lemma StatusIff(r: Reconciled, bs: seq<Balance>, ibs: seq<Balance>, positions: map<string, real>,
                  ifacePositions: map<string, real>, t: Thresholds)
    requires IsReconciliation(r, Totals(bs), Totals(ibs), positions, ifacePositions, t) && t.balanceDiff >= 0.0
    ensures var a, b := At(Totals(bs), "USDT"), At(Totals(ibs), "USDT");
            var d, n := if a >= b then a - b else b - a, r.positionDiffCount;
            var pause := (d > t.balanceDiff && d > t.balanceCritical) || n >= t.positionCriticalCount;
            && (r.status == GlobalPauseRecommended <==> pause)
            && (r.status == BalanceMismatch <==> !pause && d > t.balanceDiff)
            && (r.status == PositionMismatch <==> !pause && d <= t.balanceDiff && n > 0)
            && (r.status == OK <==> !pause && d <= t.balanceDiff && n == 0)
  {
    UsdtDecides(r, bs, ibs, positions, ifacePositions, t);
  }

  /** With the default thresholds: more than 10 USDT apart, or three symbols. */
  lemma DefaultPause(r: Reconciled, bs: seq<Balance>, ibs: seq<Balance>, positions: map<string, real>,
                     ifacePositions: map<string, real>)
    requires IsReconciliation(r, Totals(bs), Totals(ibs), positions, ifacePositions, DEFAULT_THRESHOLDS)
    ensures var a, b := At(Totals(bs), "USDT"), At(Totals(ibs), "USDT");
            && (r.status == GlobalPauseRecommended <==> a - b > 10.0 || b - a > 10.0 || r.positionDiffCount >= 3)
            && (r.status == OK <==> -1.0 <= a - b <= 1.0 && r.positionDiffCount == 0)
  {
    StatusIff(r, bs, ibs, positions, ifacePositions, DEFAULT_THRESHOLDS);
  }

  /** Of several entries for one symbol the last one counts ... */
  lemma {:induction false} LastHeldCounts(hs: seq<Held>, i: nat)
    requires i < |hs| && forall j :: i < j < |hs| ==> hs[j].symbol != hs[i].symbol
    ensures At(Quantities(hs), hs[i].symbol) == hs[i].qty
  {
    if i < |hs| - 1 { LastHeldCounts(hs[..|hs| - 1], i); }
  }

  /** ... and a symbol without one counts as zero. */
  lemma {:induction false} UnheldIsZero(hs: seq<Held>, s: string)
    requires forall j :: 0 <= j < |hs| ==> hs[j].symbol != s
    ensures At(Quantities(hs), s) == 0.0
  {
    if |hs| != 0 { UnheldIsZero(hs[..|hs| - 1], s); }
  }

  /** The same for the USDT balances, free and locked together. */
  lemma {:induction false} LastUsdtCounts(bs: seq<Balance>, i: nat)
    requires i < |bs| && bs[i].asset == "USDT" && forall j :: i < j < |bs| ==> bs[j].asset != "USDT"
    ensures At(Totals(bs), "USDT") == bs[i].free + bs[i].locked
  {
    if i < |bs| - 1 { LastUsdtCounts(bs[..|bs| - 1], i); }
  }

  lemma {:induction false} NoUsdtIsZero(bs: seq<Balance>)
    requires forall j :: 0 <= j < |bs| ==> bs[j].asset != "USDT"
    ensures At(Totals(bs), "USDT") == 0.0
  {
    if |bs| != 0 { NoUsdtIsZero(bs[..|bs| - 1]); }
  }

  // ----- the ledger against the runtime fold -----

  /** The list shows the quantities of the holdings, in any order. */
  ghost predicate Shows(hs: seq<Held>, holdings: map<string, Holding>) {
    Quantities(hs) == map s | s in holdings :: holdings[s].qty
  }

  /** On every log the ledger accepts, reconciling the account with the runtime status snapshot is OK with
      no difference at all. */
  lemma LedgerReconciles(cash: real, fills: seq<Fill>, hs: seq<Held>, ihs: seq<Held>, t: Thresholds, r: Reconciled)
    requires Replay(cash, fills).Ok?
    requires Shows(hs, HoldingsOf(Replay(cash, fills).value)) && Shows(ihs, RuntimeFold(cash, fills).positions)
    requires t.balanceDiff >= 0.0 && t.positionDiff >= 0.0 && t.positionCriticalCount > 0
    requires IsReconciliation(r, Totals([Balance("USDT", Replay(cash, fills).value.cash, 0.0)]),
                              Totals([Balance("USDT", RuntimeFold(cash, fills).balance, 0.0)]),
                              Quantities(hs), Quantities(ihs), t)
    ensures r == Reconciled(OK, 0.0, 0)
  {
    RuntimeAgrees(cash, fills);
    var b := Replay(cash, fills).value;
    var balances := [Balance("USDT", b.cash, 0.0)];
    UsdtDecides(r, balances, balances, Quantities(hs), Quantities(ihs), t);
    assert Differing(Quantities(hs), Quantities(ihs), t.positionDiff) == {};
  }
}
