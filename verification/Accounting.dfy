/** trading/portfolio/accounting.py: the mutable paper account, proved against `Ledger`. */
module Accounting {
  import opened Prelude
  import opened Sums
  import opened Ledger

  class PortfolioAccount {
    var cashBalance: real
    var positions: map<string, Position>
    var realizedPnlTotal: real

    constructor (cash: real)
      ensures Snapshot() == Book(cash, map[], 0.0)
    {
      cashBalance, positions, realizedPnlTotal := cash, map[], 0.0;
    }

    function Snapshot(): Book
      reads this
    {
      Book(cashBalance, positions, realizedPnlTotal)
    }

    /** A raise after the debit is not rolled back: the cash is already gone, and in the
        zero-quantity case the stored quantity has already been overwritten. */
    method ApplyBuyFill(f: Fill) returns (raised: Option<LedgerError>)
      modifies this
      ensures raised == None ==> Buy(old(Snapshot()), f) == Ok(Snapshot())
      ensures raised != None ==> Buy(old(Snapshot()), f) == Err(raised.value)
      ensures raised == Some(WrongSide) ==> Snapshot() == old(Snapshot())
      ensures raised == Some(InvalidPosition)
              ==> Snapshot() == old(Snapshot()).(cash := old(cashBalance) - (Gross(f) + f.fee))
      ensures raised == Some(DivisionByZero)
              ==> f.symbol in old(positions)
                  && Snapshot() == old(Snapshot()).(
                       cash := old(cashBalance) - (Gross(f) + f.fee),
                       positions := old(positions)[f.symbol := old(positions)[f.symbol].(qty := 0.0)])
    {
      if f.side == SELL { return Some(WrongSide); }
      var grossCost := f.qty * f.price;
      assert grossCost == Gross(f);
      cashBalance := cashBalance - (grossCost + f.fee);
      if f.symbol !in positions {
        if f.qty < 0.0 || f.price < 0.0 || f.fee < 0.0 { return Some(InvalidPosition); }
        positions := positions[f.symbol := Position(f.qty, f.price, f.fee, Some(f.filledAt), None)];
        return None;
      }
      var existing := positions[f.symbol];
      var oldCostBasis := existing.qty * existing.avg;
      var newQty := existing.qty + f.qty;
      var newCostBasis := oldCostBasis + grossCost;
      positions := positions[f.symbol := existing.(qty := newQty)];
      if newQty == 0.0 { return Some(DivisionByZero); }
      positions := positions[f.symbol := existing.(qty := newQty, avg := newCostBasis / newQty,
                                                   fees := existing.fees + f.fee)];
      IncreasedFields(existing, f, newQty, newCostBasis);
      assert positions == old(positions)[f.symbol := Increased(existing, f)];
      return None;
    }

    method ApplySellFill(f: Fill) returns (r: Result<real, LedgerError>)
      modifies this
      ensures r.Ok? ==> Sell(old(Snapshot()), f) == Ok(Snapshot())
      ensures r.Ok? ==> realizedPnlTotal == old(realizedPnlTotal) + r.value
      ensures r.Err? ==> Sell(old(Snapshot()), f) == Err(r.error) && Snapshot() == old(Snapshot())
    {
      if f.side == BUY { return Err(WrongSide); }
      if f.symbol !in positions { return Err(NoPosition); }
      var position := positions[f.symbol];
      if f.qty <= 0.0 { return Err(NonPositiveQty); }
      if f.qty > position.qty { return Err(ExceedsHeld); }
      var proceeds := f.qty * f.price;
      var costBasis := f.qty * position.avg;
      var feeShare := if position.fees > 0.0 then f.qty / position.qty * position.fees else 0.0;
      var realizedPnl := proceeds - costBasis - feeShare - f.fee;
      cashBalance := cashBalance + (proceeds - f.fee);
      var newQty := position.qty - f.qty;
      if newQty <= 0.0 {
        positions := positions - {f.symbol};
      } else {
        positions := positions[f.symbol := position.(qty := newQty, fees := position.fees - feeShare)];
      }
      realizedPnlTotal := realizedPnlTotal + realizedPnl;
      assert feeShare == FeeShare(position, f.qty) && realizedPnl == SellPnl(position, f);
      return Ok(realizedPnl);
    }

    /** Whatever order the positions are visited in, the sum is the specified one. */
    method TotalEquity(prices: map<string, real>) returns (equity: real)
      ensures equity == Equity(Snapshot(), prices)
    {
      var value := SumValues(ValuesOf(positions, prices));
      return cashBalance + value;
    }

    method UnrealizedPnl(prices: map<string, real>) returns (pnl: real)
      ensures pnl == Unrealized(Snapshot(), prices)
    {
      pnl := SumValues(GainsOf(positions, prices));
    }
  }

  lemma IncreasedFields(p: Position, f: Fill, qty: real, basis: real)
    requires qty == p.qty + f.qty != 0.0 && basis == p.qty * p.avg + Gross(f)
    ensures Increased(p, f) == p.(qty := qty, avg := basis / qty, fees := p.fees + f.fee)
  {}

  method SumValues(m: map<string, real>) returns (total: real)
    ensures total == Sum(m)
  {
    total := 0.0;
    var rest := m;
    while rest != map[]
      invariant total + Sum(rest) == Sum(m)
      decreases |rest.Keys|
    {
      var k :| k in rest;
      SumRemove(rest, k);
      assert (rest - {k}).Keys == rest.Keys - {k};
      total := total + rest[k];
      rest := rest - {k};
    }
  }

  /** The replay loop of `run_once` and of the dashboard's risk check: it raises exactly when the
      specification does, and otherwise leaves the account at the replayed book. */
  method Rebuild(cash: real, fills: seq<Fill>) returns (account: PortfolioAccount, raised: Option<LedgerError>)
    ensures fresh(account)
    ensures raised == None ==> Replay(cash, fills) == Ok(account.Snapshot())
    ensures raised != None ==> Replay(cash, fills) == Err(raised.value)
  {
    account := new PortfolioAccount(cash);
    raised := None;
    var i := 0;
    while i < |fills|
      invariant 0 <= i <= |fills|
      invariant raised == None
      invariant Replay(cash, fills[..i]) == Ok(account.Snapshot())
    {
      ReplaySnoc(cash, fills[..i], fills[i]);
      assert fills[..i + 1] == fills[..i] + [fills[i]];
      if fills[i].side == BUY {
        raised := account.ApplyBuyFill(fills[i]);
      } else {
        var r := account.ApplySellFill(fills[i]);
        raised := if r.Err? then Some(r.error) else None;
      }
      if raised != None {
        ErrorPersists(cash, fills, i + 1);
        return;
      }
      i := i + 1;
    }
    assert fills[..i] == fills;
  }

  lemma {:induction false} ErrorPersists(cash: real, fills: seq<Fill>, n: nat)
    requires n <= |fills| && Replay(cash, fills[..n]).Err?
    ensures Replay(cash, fills) == Replay(cash, fills[..n])
  {
    if n == |fills| {
      assert fills[..n] == fills;
    } else {
      var front := fills[..|fills| - 1];
      assert front[..n] == fills[..n];
      ErrorPersists(cash, front, n);
    }
  }
}
