/** The average-cost ledger as values: what one fill does to a book, what a whole fill log
    replays to, and the laws every replay obeys. `Accounting` proves the mutable account
    against these functions. */
module Ledger {
  import opened Prelude
  import opened Sums

  datatype Side = BUY | SELL

  datatype Fill = Fill(symbol: string, side: Side, price: real, qty: real, fee: real,
                       slippageBps: real, filledAt: int)

  datatype Position = Position(qty: real, avg: real, fees: real, openedAt: Option<int>, stop: Option<real>)

  datatype Book = Book(cash: real, positions: map<string, Position>, realized: real)

  datatype LedgerError =
    | WrongSide        // the fill went to the wrong apply method
    | InvalidPosition  // a field of a new position is negative
    | DivisionByZero   // an open position would end with quantity zero
    | NoPosition | NonPositiveQty | ExceedsHeld

  // ----- one fill -----

  function Gross(f: Fill): real { f.qty * f.price }

  function Opened(f: Fill): Position {
    Position(f.qty, f.price, f.fee, Some(f.filledAt), None)
  }

  function Increased(p: Position, f: Fill): Position
    requires p.qty + f.qty != 0.0
  {
    p.(qty := p.qty + f.qty,
       avg := (p.qty * p.avg + Gross(f)) / (p.qty + f.qty),
       fees := p.fees + f.fee)
  }

  function Buy(b: Book, f: Fill): Result<Book, LedgerError> {
    if f.side == SELL then Err(WrongSide)
    else if f.symbol !in b.positions then
      if f.qty < 0.0 || f.price < 0.0 || f.fee < 0.0 then Err(InvalidPosition)
      else Ok(b.(cash := b.cash - (Gross(f) + f.fee),
                 positions := b.positions[f.symbol := Opened(f)]))
    else if b.positions[f.symbol].qty + f.qty == 0.0 then Err(DivisionByZero)
    else Ok(b.(cash := b.cash - (Gross(f) + f.fee),
               positions := b.positions[f.symbol := Increased(b.positions[f.symbol], f)]))
  }

  /** The part of the position's entry fees that a sale of `qty` realizes. */
  function FeeShare(p: Position, qty: real): real
    requires p.qty != 0.0
  {
    if p.fees > 0.0 then qty / p.qty * p.fees else 0.0
  }

  function SellPnl(p: Position, f: Fill): real
    requires p.qty != 0.0
  {
    Gross(f) - f.qty * p.avg - FeeShare(p, f.qty) - f.fee
  }

  function Reduced(p: Position, f: Fill): Position
    requires p.qty != 0.0
  {
    p.(qty := p.qty - f.qty, fees := p.fees - FeeShare(p, f.qty))
  }

  function SellCheck(b: Book, f: Fill): Option<LedgerError> {
    if f.side == BUY then Some(WrongSide)
    else if f.symbol !in b.positions then Some(NoPosition)
    else if f.qty <= 0.0 then Some(NonPositiveQty)
    else if f.qty > b.positions[f.symbol].qty then Some(ExceedsHeld)
    else None
  }

  function Sell(b: Book, f: Fill): Result<Book, LedgerError> {
    match SellCheck(b, f)
    case Some(e) => Err(e)
    case None =>
      var p := b.positions[f.symbol];
      Ok(Book(b.cash + (Gross(f) - f.fee),
              if p.qty - f.qty <= 0.0 then b.positions - {f.symbol}
              else b.positions[f.symbol := Reduced(p, f)],
              b.realized + SellPnl(p, f)))
  }

  function Apply(b: Book, f: Fill): Result<Book, LedgerError> {
    if f.side == BUY then Buy(b, f) else Sell(b, f)
  }

  /** A fill is refused for exactly these reasons, looked at in this order. */
  lemma RefusedIff(b: Book, f: Fill)
    ensures var held := f.symbol in b.positions;
            && (Apply(b, f) == Err(InvalidPosition)
                <==> f.side == BUY && !held && (f.qty < 0.0 || f.price < 0.0 || f.fee < 0.0))
            && (Apply(b, f) == Err(DivisionByZero) <==> f.side == BUY && held && f.qty == -b.positions[f.symbol].qty)
            && (Apply(b, f) == Err(NoPosition) <==> f.side == SELL && !held)
            && (Apply(b, f) == Err(NonPositiveQty) <==> f.side == SELL && held && f.qty <= 0.0)
            && (Apply(b, f) == Err(ExceedsHeld)
                <==> f.side == SELL && held && f.qty > 0.0 && f.qty > b.positions[f.symbol].qty)
            && Apply(b, f) != Err(WrongSide)
  {}

  /** Each apply method refuses the other side, before anything else. */
  lemma WrongSideIff(b: Book, f: Fill)
    ensures Buy(b, f) == Err(WrongSide) <==> f.side == SELL
    ensures Sell(b, f) == Err(WrongSide) <==> f.side == BUY
  {}

  // ----- a whole log -----

  function Replay(cash: real, fills: seq<Fill>): Result<Book, LedgerError> {
    if |fills| == 0 then Ok(Book(cash, map[], 0.0))
    else
      var b :- Replay(cash, fills[..|fills| - 1]);
      Apply(b, fills[|fills| - 1])
  }

  lemma ReplaySnoc(cash: real, fills: seq<Fill>, f: Fill)
    ensures Replay(cash, fills + [f])
         == match Replay(cash, fills) { case Ok(b) => Apply(b, f) case Err(e) => Err(e) }
  {
    assert (fills + [f])[..|fills|] == fills;
  }

  // ----- totals over the open positions -----

  function Cost(p: Position): real { p.qty * p.avg }

  function BasisOf(ps: map<string, Position>): map<string, real> { map s | s in ps :: Cost(ps[s]) }

  function FeesOf(ps: map<string, Position>): map<string, real> { map s | s in ps :: ps[s].fees }

  function Mark(s: string, p: Position, prices: map<string, real>): real {
    if s in prices then prices[s] else p.avg
  }

  function Worth(s: string, p: Position, prices: map<string, real>): real {
    p.qty * Mark(s, p, prices)
  }

  function Gain(s: string, p: Position, prices: map<string, real>): real {
    p.qty * (Mark(s, p, prices) - p.avg)
  }

  function ValuesOf(ps: map<string, Position>, prices: map<string, real>): map<string, real> {
    map s | s in ps :: Worth(s, ps[s], prices)
  }

  function GainsOf(ps: map<string, Position>, prices: map<string, real>): map<string, real> {
    map s | s in ps :: Gain(s, ps[s], prices)
  }

  ghost function Basis(b: Book): real { Sum(BasisOf(b.positions)) }

  ghost function OpenFees(b: Book): real { Sum(FeesOf(b.positions)) }

  ghost function Value(b: Book, prices: map<string, real>): real { Sum(ValuesOf(b.positions, prices)) }

  ghost function Unrealized(b: Book, prices: map<string, real>): real { Sum(GainsOf(b.positions, prices)) }

  ghost function Equity(b: Book, prices: map<string, real>): real { b.cash + Value(b, prices) }

  // ----- conservation -----

  /** Everything that ever went in, less what came out as profit. */
  ghost function Invested(b: Book): real { b.cash + Basis(b) + OpenFees(b) - b.realized }

  ghost predicate FeesNonneg(b: Book) {
    forall s :: s in b.positions ==> b.positions[s].fees >= 0.0
  }

  lemma TotalsUpdate(ps: map<string, Position>, s: string, p: Position)
    ensures Sum(BasisOf(ps[s := p])) == Sum(BasisOf(ps)) + Cost(p) - (if s in ps then Cost(ps[s]) else 0.0)
    ensures Sum(FeesOf(ps[s := p])) == Sum(FeesOf(ps)) + p.fees - (if s in ps then ps[s].fees else 0.0)
  {
    assert BasisOf(ps[s := p]) == BasisOf(ps)[s := Cost(p)];
    SumUpdate(BasisOf(ps), s, Cost(p));
    assert FeesOf(ps[s := p]) == FeesOf(ps)[s := p.fees];
    SumUpdate(FeesOf(ps), s, p.fees);
  }

  lemma TotalsRemove(ps: map<string, Position>, s: string)
    requires s in ps
    ensures Sum(BasisOf(ps - {s})) == Sum(BasisOf(ps)) - Cost(ps[s])
    ensures Sum(FeesOf(ps - {s})) == Sum(FeesOf(ps)) - ps[s].fees
  {
    assert BasisOf(ps - {s}) == BasisOf(ps) - {s};
    SumRemove(BasisOf(ps), s);
    assert FeesOf(ps - {s}) == FeesOf(ps) - {s};
    SumRemove(FeesOf(ps), s);
  }

  lemma CostIncreased(p: Position, f: Fill)
    requires p.qty + f.qty != 0.0
    ensures Cost(Increased(p, f)) == Cost(p) + Gross(f)
  {
    DivMul(p.qty * p.avg + Gross(f), p.qty + f.qty);
  }

  /** Only the sale that closes a position can lose entry fees: a negative total is realized neither by it
      nor by an earlier sale, and goes with the position. */
  predicate LosesFees(b: Book, f: Fill) {
    && f.side == SELL && f.symbol in b.positions
    && f.qty == b.positions[f.symbol].qty && b.positions[f.symbol].fees < 0.0
  }

  function Lost(b: Book, f: Fill): (r: real)
    ensures r >= 0.0 && (r > 0.0 <==> LosesFees(b, f))
  {
    if LosesFees(b, f) then -b.positions[f.symbol].fees else 0.0
  }

  /** What all closing sales of the log lost. */
  ghost function Dropped(cash: real, fills: seq<Fill>): real {
    if |fills| == 0 then 0.0
    else
      var front := fills[..|fills| - 1];
      match Replay(cash, front)
      case Ok(b) => Dropped(cash, front) + Lost(b, fills[|fills| - 1])
      case Err(_) => Dropped(cash, front)
  }

  lemma BuyConserves(b: Book, f: Fill)
    requires Buy(b, f).Ok?
    ensures Invested(Buy(b, f).value) == Invested(b)
  {
    if f.symbol in b.positions {
      CostIncreased(b.positions[f.symbol], f);
      TotalsUpdate(b.positions, f.symbol, Increased(b.positions[f.symbol], f));
    } else {
      assert Cost(Opened(f)) == Gross(f);
      TotalsUpdate(b.positions, f.symbol, Opened(f));
    }
  }

  lemma ProperPart(q: real, fees: real)
    requires 0.0 < q < 1.0 && fees > 0.0
    ensures 0.0 < q * fees < fees
  {
    MulPos(q, fees);
    MulPos(1.0 - q, fees);
  }

  /** Of positive entry fees a sale realizes a share between nothing and all, and all exactly when it closes the
      position; of others it realizes nothing. */
  lemma FeeShareBounds(p: Position, qty: real)
    requires 0.0 < qty <= p.qty
    ensures 0.0 <= FeeShare(p, qty) <= Max(p.fees, 0.0)
    ensures FeeShare(p, qty) == Max(p.fees, 0.0) <==> qty == p.qty || p.fees <= 0.0
  {
    DivPos(qty, p.qty);
    DivMono(p.qty, qty, p.qty);
    assert p.qty / p.qty == 1.0;
    if p.fees > 0.0 && qty < p.qty { ProperPart(qty / p.qty, p.fees); }
  }

  /** A partial sale leaves the entry fees of each unit as they were; without positive fees it leaves them all. */
  lemma FeesPerUnit(p: Position, f: Fill)
    requires 0.0 < f.qty <= p.qty
    ensures p.fees > 0.0 ==> Reduced(p, f).fees * p.qty == p.fees * Reduced(p, f).qty
    ensures p.fees <= 0.0 ==> Reduced(p, f).fees == p.fees
    ensures Reduced(p, f).avg == p.avg && Reduced(p, f).qty == p.qty - f.qty
  {
    DivMul(f.qty, p.qty);
    if p.fees > 0.0 {
      var q := f.qty / p.qty;
      assert q * p.qty == f.qty;
      assert (p.fees - q * p.fees) * p.qty == p.fees * p.qty - p.fees * (q * p.qty);
    }
  }

  /** The share of a sale in terms of the fees of one unit. */
  lemma ShareOfUnits(p: Position, qty: real, unit: real)
    requires 0.0 < qty <= p.qty && p.fees > 0.0 && p.fees == unit * p.qty
    ensures FeeShare(p, qty) == qty * unit
  {
    DivMul(qty, p.qty);
    var q := qty / p.qty;
    assert q * (unit * p.qty) == unit * (q * p.qty);
  }

  /** Selling in two parts at one price realizes what one sale of both realizes. */
  lemma SplitSale(p: Position, f: Fill, g: Fill)
    requires f.qty > 0.0 && g.qty > 0.0 && f.qty + g.qty <= p.qty && f.price == g.price
    ensures SellPnl(p, f) + SellPnl(Reduced(p, f), g) == SellPnl(p, f.(qty := f.qty + g.qty, fee := f.fee + g.fee))
  {
    var both := f.(qty := f.qty + g.qty, fee := f.fee + g.fee);
    FeesPerUnit(p, f);
    if p.fees > 0.0 { SplitShares(p, f, g.qty); }
    assert Gross(both) == Gross(f) + Gross(g);
    assert both.qty * p.avg == f.qty * p.avg + g.qty * p.avg;
  }

  lemma SplitShares(p: Position, f: Fill, more: real)
    requires f.qty > 0.0 && more > 0.0 && f.qty + more <= p.qty && p.fees > 0.0
    ensures FeeShare(p, f.qty) + FeeShare(Reduced(p, f), more) == FeeShare(p, f.qty + more)
  {
    var unit := p.fees / p.qty;
    DivMul(p.fees, p.qty);
    DivPos(p.fees, p.qty);
    ShareOfUnits(p, f.qty, unit);
    ShareOfUnits(p, f.qty + more, unit);
    var left := p.qty - f.qty;
    assert Reduced(p, f).fees == unit * p.qty - f.qty * unit == unit * left;
    MulPos(unit, left);
    ShareOfUnits(Reduced(p, f), more, unit);
  }

  lemma CostReduced(p: Position, f: Fill)
    requires p.qty != 0.0
    ensures Cost(Reduced(p, f)) == Cost(p) - f.qty * p.avg
  {}

  /** Closing a position realizes the proceeds less its whole cost and the fees on both sides, but an entry
      total below zero counts as nothing. */
  lemma ClosePnl(p: Position, f: Fill)
    requires 0.0 < f.qty == p.qty
    ensures SellPnl(p, f) == Gross(f) - Cost(p) - Max(p.fees, 0.0) - f.fee
  {
    FeeShareBounds(p, f.qty);
  }

  lemma ClosingSale(b: Book, f: Fill)
    requires SellCheck(b, f) == None && f.qty == b.positions[f.symbol].qty
    ensures Sell(b, f) == Ok(Book(b.cash + (Gross(f) - f.fee), b.positions - {f.symbol},
                                  b.realized + SellPnl(b.positions[f.symbol], f)))
  {}

  lemma CloseConserves(b: Book, f: Fill)
    requires SellCheck(b, f) == None && f.qty == b.positions[f.symbol].qty
    ensures Invested(Sell(b, f).value) == Invested(b) + Lost(b, f)
  {
    ClosePnl(b.positions[f.symbol], f);
    ClosingSale(b, f);
    TotalsRemove(b.positions, f.symbol);
  }

  lemma PartialConserves(b: Book, f: Fill)
    requires SellCheck(b, f) == None && f.qty < b.positions[f.symbol].qty
    ensures Invested(Sell(b, f).value) == Invested(b)
  {
    var p := b.positions[f.symbol];
    PartialSale(b, f);
    TotalsUpdate(b.positions, f.symbol, Reduced(p, f));
    SaleBalances(p, f);
  }

  lemma PartialSale(b: Book, f: Fill)
    requires SellCheck(b, f) == None && f.qty < b.positions[f.symbol].qty
    ensures var p := b.positions[f.symbol];
            Sell(b, f) == Ok(Book(b.cash + (Gross(f) - f.fee), b.positions[f.symbol := Reduced(p, f)],
                                  b.realized + SellPnl(p, f)))
  {}

  /** The profit is what comes in less the cost and the entry fees that leave the position. */
  lemma SaleBalances(p: Position, f: Fill)
    requires p.qty != 0.0
    ensures SellPnl(p, f) == Gross(f) - f.fee - (Cost(p) - Cost(Reduced(p, f))) - (p.fees - Reduced(p, f).fees)
  {
    CostReduced(p, f);
  }

  lemma ApplyConserves(b: Book, f: Fill)
    requires Apply(b, f).Ok?
    ensures Invested(Apply(b, f).value) == Invested(b) + Lost(b, f)
  {
    if f.side == BUY { BuyConserves(b, f); }
    else if f.qty == b.positions[f.symbol].qty { CloseConserves(b, f); }
    else { PartialConserves(b, f); }
  }

  /** For every accepted log: cash + cost basis + open fees = initial cash + realized profit + the negative
      entry fees its closing sales lost. */
  lemma {:induction false} Conservation(cash: real, fills: seq<Fill>)
    requires Replay(cash, fills).Ok?
    ensures var b := Replay(cash, fills).value;
            b.cash + Basis(b) + OpenFees(b) == cash + b.realized + Dropped(cash, fills)
  {
    if |fills| != 0 {
      var front := fills[..|fills| - 1];
      Conservation(cash, front);
      ApplyConserves(Replay(cash, front).value, fills[|fills| - 1]);
    }
  }

  /** Sale `n` of the log closes a position whose entry fees sum to less than zero. */
  ghost predicate LosesFeesAt(cash: real, fills: seq<Fill>, n: nat)
    requires n < |fills|
  {
    match Replay(cash, fills[..n]) case Ok(b) => LosesFees(b, fills[n]) case Err(_) => false
  }

  lemma {:induction false} DroppedIff(cash: real, fills: seq<Fill>)
    ensures Dropped(cash, fills) >= 0.0
    ensures Dropped(cash, fills) == 0.0 <==> forall n :: 0 <= n < |fills| ==> !LosesFeesAt(cash, fills, n)
  {
    if |fills| != 0 {
      var last := |fills| - 1;
      DroppedIff(cash, fills[..last]);
      forall n | 0 <= n < last ensures LosesFeesAt(cash, fills, n) == LosesFeesAt(cash, fills[..last], n) {
        assert fills[..last][..n] == fills[..n];
      }
      assert LosesFeesAt(cash, fills, last) <==> (Dropped(cash, fills) != Dropped(cash, fills[..last]));
    }
  }

  /** The books balance without that term exactly when no sale closes a position of negative fees. */
  lemma BalancesIff(cash: real, fills: seq<Fill>)
    requires Replay(cash, fills).Ok?
    ensures var b := Replay(cash, fills).value;
            b.cash + Basis(b) + OpenFees(b) == cash + b.realized
            <==> forall n :: 0 <= n < |fills| ==> !LosesFeesAt(cash, fills, n)
  {
    Conservation(cash, fills);
    DroppedIff(cash, fills);
  }

  ghost predicate FillFeesNonneg(fills: seq<Fill>) {
    forall n :: 0 <= n < |fills| ==> fills[n].fee >= 0.0
  }

  lemma ApplyKeepsFees(b: Book, f: Fill)
    requires Apply(b, f).Ok? && FeesNonneg(b) && f.fee >= 0.0
    ensures FeesNonneg(Apply(b, f).value)
  {
    if f.side == SELL { FeeShareBounds(b.positions[f.symbol], f.qty); }
  }

  /** Fills whose fees are not negative never lose any. */
  lemma {:induction false} NothingDropped(cash: real, fills: seq<Fill>)
    requires Replay(cash, fills).Ok? && FillFeesNonneg(fills)
    ensures FeesNonneg(Replay(cash, fills).value) && Dropped(cash, fills) == 0.0
  {
    if |fills| != 0 {
      var front := fills[..|fills| - 1];
      assert FillFeesNonneg(front);
      NothingDropped(cash, front);
      ApplyKeepsFees(Replay(cash, front).value, fills[|fills| - 1]);
    }
  }

  const FEE_ONE := Fill("A", BUY, 100.0, 1.0, 1.0, 0.0, 0)
  const FEE_BACK := Fill("A", BUY, 100.0, 1.0, -2.0, 0.0, 1)
  const CLOSE_BOTH := Fill("A", SELL, 100.0, 2.0, 0.0, 0.0, 2)
  const FEE_POSITION := Position(2.0, 100.0, -1.0, Some(0), None)

  lemma FeesAddUp()
    ensures Apply(Book(899.0, map["A" := Opened(FEE_ONE)], 0.0), FEE_BACK)
         == Ok(Book(801.0, map["A" := FEE_POSITION], 0.0))
  {
    var p := Opened(FEE_ONE);
    assert Increased(p, FEE_BACK) == FEE_POSITION;
    assert map["A" := p]["A" := FEE_POSITION] == map["A" := FEE_POSITION];
  }

  lemma FeesVanish()
    ensures Apply(Book(801.0, map["A" := FEE_POSITION], 0.0), CLOSE_BOTH) == Ok(Book(1001.0, map[], 0.0))
  {
    var b := Book(801.0, map["A" := FEE_POSITION], 0.0);
    ClosingSale(b, CLOSE_BOTH);
    assert b.positions - {"A"} == map[];
  }

  lemma FirstFee()
    ensures Apply(Book(1000.0, map[], 0.0), FEE_ONE) == Ok(Book(899.0, map["A" := Opened(FEE_ONE)], 0.0))
  {}

  lemma ThreeFills(cash: real, f: Fill, g: Fill, h: Fill, x: Book, y: Book)
    requires Apply(Book(cash, map[], 0.0), f) == Ok(x) && Apply(x, g) == Ok(y)
    ensures Replay(cash, [f, g, h]) == Apply(y, h)
  {
    ReplaySnoc(cash, [], f);
    ReplaySnoc(cash, [f], g);
    ReplaySnoc(cash, [f, g], h);
    assert [] + [f] == [f] && [f] + [g] == [f, g] && [f, g] + [h] == [f, g, h];
  }

  /** Three accepted fills with fees 1, -2 and 0 at one price: nothing is held at the end, cash is one above
      the start and the realized profit is nothing. */
  lemma NegativeFeeVanishes()
    ensures Replay(1000.0, [FEE_ONE, FEE_BACK, CLOSE_BOTH]) == Ok(Book(1001.0, map[], 0.0))
  {
    FirstFee();
    FeesAddUp();
    FeesVanish();
    ThreeFills(1000.0, FEE_ONE, FEE_BACK, CLOSE_BOTH, Book(899.0, map["A" := Opened(FEE_ONE)], 0.0),
               Book(801.0, map["A" := FEE_POSITION], 0.0));
  }

  lemma ValueSplits(b: Book, prices: map<string, real>)
    ensures Value(b, prices) == Basis(b) + Unrealized(b, prices)
  {
    SumPlus(BasisOf(b.positions), GainsOf(b.positions, prices), ValuesOf(b.positions, prices));
  }

  /** Hence, at every price map: equity = initial cash + realized + unrealized - open fees + lost fees. */
  lemma EquityDecomposition(cash: real, fills: seq<Fill>, prices: map<string, real>)
    requires Replay(cash, fills).Ok?
    ensures var b := Replay(cash, fills).value;
            Equity(b, prices) == cash + b.realized + Unrealized(b, prices) - OpenFees(b) + Dropped(cash, fills)
  {
    Conservation(cash, fills);
    ValueSplits(Replay(cash, fills).value, prices);
  }

  // ----- positions without a price, and what a price does -----

  lemma SameMarks(ps: map<string, Position>, prices: map<string, real>, others: map<string, real>)
    requires forall t :: t in ps ==> Mark(t, ps[t], prices) == Mark(t, ps[t], others)
    ensures ValuesOf(ps, prices) == ValuesOf(ps, others) && GainsOf(ps, prices) == GainsOf(ps, others)
  {
    assert forall t :: t in ps ==> Worth(t, ps[t], prices) == Worth(t, ps[t], others);
    assert forall t :: t in ps ==> Gain(t, ps[t], prices) == Gain(t, ps[t], others);
  }

  /** A position without a market price counts as if its own average were the price. */
  lemma UnpricedAtAverage(b: Book, prices: map<string, real>, s: string)
    requires s in b.positions && s !in prices
    ensures Equity(b, prices) == Equity(b, prices[s := b.positions[s].avg])
    ensures Unrealized(b, prices) == Unrealized(b, prices[s := b.positions[s].avg])
  {
    SameMarks(b.positions, prices, prices[s := b.positions[s].avg]);
  }

  /** With no open symbol priced, equity is cash plus cost, and nothing is unrealized. */
  lemma AllUnpriced(b: Book, prices: map<string, real>)
    requires forall s :: s in b.positions ==> s !in prices
    ensures Equity(b, prices) == b.cash + Basis(b) && Unrealized(b, prices) == 0.0
  {
    forall s | s in b.positions ensures Worth(s, b.positions[s], prices) == Cost(b.positions[s]) {
      assert Mark(s, b.positions[s], prices) == b.positions[s].avg;
    }
    assert ValuesOf(b.positions, prices) == BasisOf(b.positions);
    ValueSplits(b, prices);
  }

  /** Moving the price of an open symbol moves equity and unrealized profit by its quantity; other prices
      do not matter. */
  lemma PriceMoves(b: Book, prices: map<string, real>, s: string, x: real, y: real)
    ensures var more := if s in b.positions then b.positions[s].qty * (y - x) else 0.0;
            && Equity(b, prices[s := y]) == Equity(b, prices[s := x]) + more
            && Unrealized(b, prices[s := y]) == Unrealized(b, prices[s := x]) + more
  {
    var more := if s in b.positions then b.positions[s].qty * (y - x) else 0.0;
    ValueMoves(b, prices, s, x, y, more);
    TotalsMove(b, prices[s := x], prices[s := y], more);
  }

  lemma ValueMoves(b: Book, prices: map<string, real>, s: string, x: real, y: real, more: real)
    requires more == if s in b.positions then b.positions[s].qty * (y - x) else 0.0
    ensures Value(b, prices[s := y]) == Value(b, prices[s := x]) + more
  {
    if s in b.positions { HeldPriceMoves(b.positions, prices, s, x, y, more); }
    else { OtherPriceMoves(b, prices, s, x, y); }
  }

  lemma OtherPriceMoves(b: Book, prices: map<string, real>, s: string, x: real, y: real)
    requires s !in b.positions
    ensures Value(b, prices[s := y]) == Value(b, prices[s := x])
  {
    SameMarks(b.positions, prices[s := x], prices[s := y]);
  }

  lemma TotalsMove(b: Book, prices: map<string, real>, others: map<string, real>, more: real)
    requires Value(b, others) == Value(b, prices) + more
    ensures Equity(b, others) == Equity(b, prices) + more && Unrealized(b, others) == Unrealized(b, prices) + more
  {
    ValueSplits(b, prices);
    ValueSplits(b, others);
  }

  lemma OneWorthMoves(ps: map<string, Position>, prices: map<string, real>, others: map<string, real>, s: string,
                      u: real, v: real)
    requires s in ps && forall t :: t in ps && t != s ==> Mark(t, ps[t], prices) == Mark(t, ps[t], others)
    requires u == Worth(s, ps[s], prices) && v == Worth(s, ps[s], others)
    ensures Sum(ValuesOf(ps, others)) == Sum(ValuesOf(ps, prices)) + (v - u)
  {
    forall t | t in ps && t != s ensures Worth(t, ps[t], others) == Worth(t, ps[t], prices) {
      assert Mark(t, ps[t], prices) == Mark(t, ps[t], others);
    }
    assert ValuesOf(ps, others) == ValuesOf(ps, prices)[s := v];
    SumMoves(ValuesOf(ps, prices), ValuesOf(ps, others), s, u, v);
  }

  lemma PriceDifference(q: real, x: real, y: real)
    ensures q * (y - x) == q * y - q * x
  {}

  lemma WorthAt(s: string, p: Position, prices: map<string, real>, x: real)
    ensures Worth(s, p, prices[s := x]) == p.qty * x
  {}

  lemma SumMoves(m: map<string, real>, n: map<string, real>, s: string, u: real, v: real)
    requires s in m && m[s] == u && n == m[s := v]
    ensures Sum(n) == Sum(m) + (v - u)
  {
    SumUpdate(m, s, v);
  }

  lemma HeldPriceMoves(ps: map<string, Position>, prices: map<string, real>, s: string, x: real, y: real, more: real)
    requires s in ps && more == ps[s].qty * (y - x)
    ensures Sum(ValuesOf(ps, prices[s := y])) == Sum(ValuesOf(ps, prices[s := x])) + more
  {
    OthersKeepMarks(ps, prices, s, x, y);
    WorthAt(s, ps[s], prices, x);
    WorthAt(s, ps[s], prices, y);
    PriceDifference(ps[s].qty, x, y);
    OneWorthMoves(ps, prices[s := x], prices[s := y], s, ps[s].qty * x, ps[s].qty * y);
  }

  lemma OthersKeepMarks(ps: map<string, Position>, prices: map<string, real>, s: string, x: real, y: real)
    ensures forall t :: t in ps && t != s ==> Mark(t, ps[t], prices[s := x]) == Mark(t, ps[t], prices[s := y])
  {}

  // ----- when a position was opened -----

  /** The time of the first BUY of a symbol since it was last flat; none while it is flat. */
  ghost function FirstBuy(cash: real, fills: seq<Fill>, s: string): Option<int> {
    if |fills| == 0 then None
    else
      var f, before := fills[|fills| - 1], FirstBuy(cash, fills[..|fills| - 1], s);
      if f.symbol != s then before
      else if f.side == BUY then (if before == None then Some(f.filledAt) else before)
      else match Replay(cash, fills)
        case Ok(b) => if s in b.positions then before else None
        case Err(_) => None
  }

  ghost predicate OpenedByFirstBuy(cash: real, fills: seq<Fill>, s: string)
    requires Replay(cash, fills).Ok?
  {
    var ps := Replay(cash, fills).value.positions;
    && (s in ps <==> FirstBuy(cash, fills, s) != None)
    && (s in ps ==> ps[s].openedAt == FirstBuy(cash, fills, s) && ps[s].stop == None)
  }

  /** On every accepted log, an open position carries the time of that BUY and no stop of its own. */
  lemma {:induction false} OpenedAt(cash: real, fills: seq<Fill>, s: string)
    requires Replay(cash, fills).Ok?
    ensures OpenedByFirstBuy(cash, fills, s)
  {
    if |fills| != 0 { OpenedAt(cash, fills[..|fills| - 1], s); }
  }

  // ----- the average price -----

  ghost predicate QtyPositive(b: Book) {
    forall s :: s in b.positions ==> b.positions[s].qty > 0.0
  }

  ghost predicate QtyNonneg(b: Book) {
    forall s :: s in b.positions ==> b.positions[s].qty >= 0.0
  }

  ghost predicate BuysNonneg(fills: seq<Fill>) {
    forall i :: 0 <= i < |fills| && fills[i].side == BUY ==> fills[i].qty >= 0.0
  }

  ghost predicate BuysPositive(fills: seq<Fill>) {
    forall i :: 0 <= i < |fills| && fills[i].side == BUY ==> fills[i].qty > 0.0
  }

  /** The BUY prices of a symbol since its open position was last flat. */
  ghost function OpenBuys(cash: real, fills: seq<Fill>, s: string): seq<real> {
    if |fills| == 0 then []
    else
      var f, before := fills[|fills| - 1], OpenBuys(cash, fills[..|fills| - 1], s);
      if f.symbol != s then before
      else if f.side == BUY then before + [f.price]
      else match Replay(cash, fills)
        case Ok(b) => if s in b.positions then before else []
        case Err(_) => []
  }

  ghost predicate Between(x: real, xs: seq<real>) {
    (exists i :: 0 <= i < |xs| && xs[i] <= x) && (exists j :: 0 <= j < |xs| && x <= xs[j])
  }

  lemma BetweenSnoc(x: real, y: real, xs: seq<real>, p: real)
    requires Between(x, xs) && Min(x, p) <= y <= Max(x, p)
    ensures Between(y, xs + [p])
  {
    var ys := xs + [p];
    var i :| 0 <= i < |xs| && xs[i] <= x;
    var j :| 0 <= j < |xs| && x <= xs[j];
    assert ys[i] == xs[i] && ys[j] == xs[j] && ys[|xs|] == p;
  }

  lemma AverageMoves(p: Position, f: Fill)
    requires p.qty >= 0.0 && f.qty >= 0.0 && p.qty + f.qty != 0.0
    ensures Min(p.avg, f.price) <= Increased(p, f).avg <= Max(p.avg, f.price)
  {
    var total := p.qty * p.avg + Gross(f);
    MeanBounds(p.qty, p.avg, f.qty, f.price, total);
    assert Increased(p, f).avg == total / (p.qty + f.qty);
  }

  /** A weighted mean lies between the two values. */
  lemma MeanBounds(q: real, a: real, r: real, p: real, total: real)
    requires q >= 0.0 && r >= 0.0 && q + r > 0.0 && total == q * a + r * p
    ensures Min(a, p) <= total / (q + r) <= Max(a, p)
  {
    var lo, hi := Min(a, p), Max(a, p);
    MulMono(q, lo, a);
    MulMono(r, lo, p);
    MulMono(q, a, hi);
    MulMono(r, p, hi);
    QuotientBounds(lo, total, q + r, hi);
  }

  lemma {:induction false} QuantitiesPositive(cash: real, fills: seq<Fill>)
    requires Replay(cash, fills).Ok? && BuysPositive(fills)
    ensures QtyPositive(Replay(cash, fills).value)
  {
    if |fills| != 0 {
      assert BuysPositive(fills[..|fills| - 1]);
      QuantitiesPositive(cash, fills[..|fills| - 1]);
    }
  }

  lemma {:induction false} QuantitiesNonneg(cash: real, fills: seq<Fill>)
    requires Replay(cash, fills).Ok? && BuysNonneg(fills)
    ensures QtyNonneg(Replay(cash, fills).value)
  {
    if |fills| != 0 {
      assert BuysNonneg(fills[..|fills| - 1]);
      QuantitiesNonneg(cash, fills[..|fills| - 1]);
    }
  }

  ghost predicate AverageOk(cash: real, fills: seq<Fill>, s: string)
    requires Replay(cash, fills).Ok?
  {
    var ps := Replay(cash, fills).value.positions;
    if s in ps then Between(ps[s].avg, OpenBuys(cash, fills, s)) else OpenBuys(cash, fills, s) == []
  }

  lemma BuyKeepsAverageOk(cash: real, fills: seq<Fill>)
    requires |fills| != 0 && Replay(cash, fills).Ok? && BuysNonneg(fills)
    requires fills[|fills| - 1].side == BUY
    requires AverageOk(cash, fills[..|fills| - 1], fills[|fills| - 1].symbol)
    ensures AverageOk(cash, fills, fills[|fills| - 1].symbol)
  {
    var front, f := fills[..|fills| - 1], fills[|fills| - 1];
    assert BuysNonneg(front);
    QuantitiesNonneg(cash, front);
    var b := Replay(cash, front).value;
    if f.symbol in b.positions {
      var p := b.positions[f.symbol];
      AverageMoves(p, f);
      BetweenSnoc(p.avg, Increased(p, f).avg, OpenBuys(cash, front, f.symbol), f.price);
    } else {
      assert OpenBuys(cash, fills, f.symbol)[0] == f.price;
    }
  }

  /** In an accepted log without negative BUY quantities, every average price lies within the BUY prices seen
      since that position opened. */
  lemma {:induction false} AverageWithinBuys(cash: real, fills: seq<Fill>, s: string)
    requires Replay(cash, fills).Ok? && BuysNonneg(fills)
    ensures AverageOk(cash, fills, s)
  {
    if |fills| != 0 {
      var front, f := fills[..|fills| - 1], fills[|fills| - 1];
      assert BuysNonneg(front);
      AverageWithinBuys(cash, front, s);
      if f.side == BUY && f.symbol == s { BuyKeepsAverageOk(cash, fills); }
    }
  }
}
