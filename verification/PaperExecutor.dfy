/** trading/execution/paper_executor.py: simulated market fills, and what they do to the ledger. */
module PaperExecution {
  import opened Prelude
  import opened Ledger
  import opened Risk

  datatype Order = Order(symbol: string, side: Side, requestedNotional: real, createdAt: int)

  datatype Execution = Rejected(reasons: seq<string>) | Filled(order: Order, fill: Fill)

  datatype PaperExecutor = PaperExecutor(feeBps: real, slippageBps: real) {

    /** The rates the executor is meant for: each below 100%. */
    predicate Valid() { 0.0 <= feeBps < 10000.0 && 0.0 <= slippageBps < 10000.0 }

    function FeeRate(): real { feeBps / 10000.0 }

    function FeeOn(amount: real): real { amount * feeBps / 10000.0 }

    /** The share of an amount left after the fee. */
    function KeepRate(): real { 1.0 - FeeRate() }

    /** BUY pays more, SELL receives less. */
    function SlippageFactor(side: Side): real {
      if side == BUY then 1.0 + slippageBps / 10000.0 else 1.0 - slippageBps / 10000.0
    }

    function ApplySlippage(price: real, side: Side): real { price * SlippageFactor(side) }

    function ExecuteMarketBuy(symbol: string, size: Size, marketPrice: real, at: int): Execution
      requires slippageBps > -10000.0
    {
      if !size.approved then Rejected(["position_size_rejected"] + size.reasons)
      else if marketPrice <= 0.0 then Rejected(["invalid_market_price"])
      else
        MulPos(marketPrice, SlippageFactor(BUY));
        var fillPrice := ApplySlippage(marketPrice, BUY);
        var fee := FeeOn(size.notional);
        Filled(Order(symbol, BUY, size.notional, at),
               Fill(symbol, BUY, fillPrice, (size.notional - fee) / fillPrice, fee, slippageBps, at))
    }

    function ExecuteMarketSell(symbol: string, qty: real, marketPrice: real, at: int): Execution {
      if qty <= 0.0 then Rejected(["invalid_qty"])
      else if marketPrice <= 0.0 then Rejected(["invalid_market_price"])
      else
        var fillPrice := ApplySlippage(marketPrice, SELL);
        Filled(Order(symbol, SELL, qty * fillPrice, at),
               Fill(symbol, SELL, fillPrice, qty, FeeOn(qty * fillPrice), slippageBps, at))
    }
  }

  lemma RateFacts(e: PaperExecutor, n: real)
    requires e.Valid() && n > 0.0
    ensures 0.0 <= e.FeeRate() < 1.0 && 0.0 < e.KeepRate() <= 1.0
    ensures 0.0 < e.SlippageFactor(SELL) <= 1.0 <= e.SlippageFactor(BUY)
    ensures 0.0 <= e.FeeOn(n) < n && e.FeeOn(n) == n * e.FeeRate() && n - e.FeeOn(n) == n * e.KeepRate()
  {
    MulNonneg(n, e.FeeRate());
    MulPos(n, e.KeepRate());
  }

  lemma SlippedPrices(e: PaperExecutor, price: real)
    requires e.Valid() && price > 0.0
    ensures 0.0 < e.ApplySlippage(price, SELL) <= price <= e.ApplySlippage(price, BUY)
  {
    var low, high := e.SlippageFactor(SELL), e.SlippageFactor(BUY);
    RateFacts(e, 1.0);
    MulPos(price, low);
    MulMono(price, low, 1.0);
    MulMono(price, 1.0, high);
    assert e.ApplySlippage(price, SELL) == price * low && e.ApplySlippage(price, BUY) == price * high;
  }

  /** A simulated BUY is well formed, pays a non-negative fee, costs exactly the approved notional,
      and is worth at most that notional at the market price. */
  lemma BuyFill(e: PaperExecutor, symbol: string, size: Size, marketPrice: real, at: int)
    requires e.Valid() && size.approved && size.notional > 0.0 && marketPrice > 0.0
    ensures var x := e.ExecuteMarketBuy(symbol, size, marketPrice, at);
            x.Filled? && x.fill.symbol == symbol && x.fill.side == BUY && x.fill.filledAt == at
            && x.fill.qty > 0.0 && x.fill.price >= marketPrice && 0.0 <= x.fill.fee < size.notional
            && x.fill.price == e.ApplySlippage(marketPrice, BUY)
            && x.fill.fee == e.FeeOn(size.notional)
            && Gross(x.fill) + x.fill.fee == size.notional
            && x.fill.qty * marketPrice <= size.notional
  {
    RateFacts(e, size.notional);
    SlippedPrices(e, marketPrice);
    var f := e.ExecuteMarketBuy(symbol, size, marketPrice, at).fill;
    DivPos(size.notional - f.fee, f.price);
    DivMul(size.notional - f.fee, f.price);
    MulMono(f.qty, marketPrice, f.price);
  }

  /** A simulated SELL sells exactly the requested quantity at a positive price, with a non-negative fee. */
  lemma SellFill(e: PaperExecutor, symbol: string, qty: real, marketPrice: real, at: int)
    requires e.Valid() && qty > 0.0 && marketPrice > 0.0
    ensures var x := e.ExecuteMarketSell(symbol, qty, marketPrice, at);
            x.Filled? && x.fill.symbol == symbol && x.fill.side == SELL && x.fill.filledAt == at
            && x.fill.qty == qty && 0.0 < x.fill.price <= marketPrice
            && x.fill.price == e.ApplySlippage(marketPrice, SELL)
            && x.fill.fee == e.FeeOn(Gross(x.fill)) >= 0.0
  {
    SlippedPrices(e, marketPrice);
    var f := e.ExecuteMarketSell(symbol, qty, marketPrice, at).fill;
    MulPos(qty, f.price);
    RateFacts(e, Gross(f));
  }

  /** A BUY fills exactly if the size is approved and the market price positive, and says what is missing first;
      a filled one pays the market price and its slippage in basis points, and the fee in basis points of the
      notional. */
  lemma BuyInBps(e: PaperExecutor, symbol: string, size: Size, marketPrice: real, at: int)
    requires e.Valid()
    ensures var x := e.ExecuteMarketBuy(symbol, size, marketPrice, at);
            && (x.Filled? <==> size.approved && marketPrice > 0.0)
            && (!size.approved ==> x == Rejected(["position_size_rejected"] + size.reasons))
            && (size.approved && marketPrice <= 0.0 ==> x == Rejected(["invalid_market_price"]))
            && (x.Filled? ==>
                  && x.order == Order(symbol, BUY, size.notional, at)
                  && x.fill.symbol == symbol && x.fill.side == BUY && x.fill.filledAt == at
                  && x.fill.slippageBps == e.slippageBps
                  && 10000.0 * x.fill.price == marketPrice * (10000.0 + e.slippageBps)
                  && 10000.0 * x.fill.fee == size.notional * e.feeBps
                  && x.fill.qty * x.fill.price == size.notional - x.fill.fee)
  {
    if size.approved && marketPrice > 0.0 {
      MulPos(marketPrice, e.SlippageFactor(BUY));
      var f := e.ExecuteMarketBuy(symbol, size, marketPrice, at).fill;
      DivMul(size.notional - f.fee, f.price);
      PriceInBps(marketPrice, e.slippageBps);
    }
  }

  lemma PriceInBps(m: real, bps: real)
    ensures 10000.0 * (m * (1.0 + bps / 10000.0)) == m * (10000.0 + bps)
    ensures 10000.0 * (m * (1.0 - bps / 10000.0)) == m * (10000.0 - bps)
  {}

  /** A SELL fills exactly if quantity and market price are positive; it receives the market price less its
      slippage in basis points, and pays the fee in basis points of the proceeds. */
  lemma SellInBps(e: PaperExecutor, symbol: string, qty: real, marketPrice: real, at: int)
    requires e.Valid()
    ensures var x := e.ExecuteMarketSell(symbol, qty, marketPrice, at);
            && (x.Filled? <==> qty > 0.0 && marketPrice > 0.0)
            && (qty <= 0.0 ==> x == Rejected(["invalid_qty"]))
            && (qty > 0.0 && marketPrice <= 0.0 ==> x == Rejected(["invalid_market_price"]))
            && (x.Filled? ==>
                  && x.order == Order(symbol, SELL, qty * x.fill.price, at)
                  && x.fill.symbol == symbol && x.fill.side == SELL && x.fill.filledAt == at
                  && x.fill.slippageBps == e.slippageBps && x.fill.qty == qty
                  && 10000.0 * x.fill.price == marketPrice * (10000.0 - e.slippageBps)
                  && 10000.0 * x.fill.fee == qty * x.fill.price * e.feeBps)
  {
    PriceInBps(marketPrice, e.slippageBps);
  }

  // ----- executor and ledger together -----

  /** Whatever the book held before, an accepted paper BUY takes exactly the approved notional out of
      cash; the fees and the cost of the new shares account for all of it. */
  lemma BuyCostsNotional(e: PaperExecutor, b: Book, symbol: string, size: Size, marketPrice: real, at: int)
    requires e.Valid() && size.approved && size.notional > 0.0 && marketPrice > 0.0
    requires QtyPositive(b)
    ensures var f := e.ExecuteMarketBuy(symbol, size, marketPrice, at).fill;
            Buy(b, f).Ok? && Buy(b, f).value.cash == b.cash - size.notional
  {
    BuyFill(e, symbol, size, marketPrice, at);
  }

  /** The share of the notional that survives one round trip at an unchanged market price. */
  function RoundTripFactor(e: PaperExecutor): real
    requires e.slippageBps > -10000.0
  {
    Product(KeepTwice(e), SpreadRatio(e))
  }

  /** Both sides charge the fee. */
  function KeepTwice(e: PaperExecutor): real { Product(e.KeepRate(), e.KeepRate()) }

  function SpreadRatio(e: PaperExecutor): real
    requires e.slippageBps > -10000.0
  {
    e.SlippageFactor(SELL) / e.SlippageFactor(BUY)
  }

  lemma KeepInBps(e: PaperExecutor)
    ensures 10000.0 * e.KeepRate() == 10000.0 - e.feeBps
  {}

  lemma ThreeFactors(a: real, k: real, r: real, up: real, down: real)
    requires 10000.0 * k == a && r * up == down
    ensures k * k * r * 100000000.0 * up == a * a * down
  {
    assert a * a == 100000000.0 * (k * k);
    assert k * k * r * 100000000.0 * up == 100000000.0 * (k * k) * (r * up);
  }

  /** The factor in basis points: the fee is paid twice, and the spread is what slippage takes off one side
      over what it puts on the other. */
  lemma RoundTripInBps(e: PaperExecutor)
    requires e.Valid()
    ensures RoundTripFactor(e) * 100000000.0 * (10000.0 + e.slippageBps)
         == (10000.0 - e.feeBps) * (10000.0 - e.feeBps) * (10000.0 - e.slippageBps)
  {
    KeepInBps(e);
    var up, down := 10000.0 + e.slippageBps, 10000.0 - e.slippageBps;
    assert 10000.0 * e.SlippageFactor(BUY) == up && 10000.0 * e.SlippageFactor(SELL) == down;
    DivMul(e.SlippageFactor(SELL), e.SlippageFactor(BUY));
    var r := SpreadRatio(e);
    assert r * up == down by { assert r * up == 10000.0 * (r * e.SlippageFactor(BUY)); }
    ThreeFactors(10000.0 - e.feeBps, e.KeepRate(), r, up, down);
  }

  lemma FactorAtMostOne(e: PaperExecutor)
    requires e.Valid()
    ensures 0.0 < RoundTripFactor(e) <= 1.0
  {
    RateFacts(e, 1.0);
    assert 0.0 < SpreadRatio(e) <= 1.0 by {
      DivPos(e.SlippageFactor(SELL), e.SlippageFactor(BUY));
      QuotientBounds(0.0, e.SlippageFactor(SELL), e.SlippageFactor(BUY), 1.0);
    }
    ProductInUnit(e.KeepRate(), e.KeepRate());
    ProductInUnit(KeepTwice(e), SpreadRatio(e));
  }

  function Product(a: real, b: real): real { a * b }

  lemma ProductInUnit(a: real, b: real)
    requires 0.0 < a <= 1.0 && 0.0 < b <= 1.0
    ensures 0.0 < Product(a, b) <= 1.0
  {
    MulPos(a, b);
    assert a * (1.0 - b) >= 0.0;
  }

  lemma ProceedsAlgebra(n: real, m: real, qty: real, up: real, down: real, keep: real, r: real)
    requires qty * (m * up) == n * keep && r * up == down
    ensures qty * (m * down) * keep == n * (keep * keep * r)
  {
    assert qty * (m * down) == qty * (m * up) * r by { assert m * down == m * up * r; }
    assert n * keep * r * keep == n * (keep * keep * r);
  }

  /** Buying from flat and selling everything at the same market price realizes
      N * ((1-f)^2 (1-s)/(1+s) - 1): never a profit. */
  lemma RoundTrip(e: PaperExecutor, b: Book, symbol: string, size: Size, m: real, at: int, later: int,
                  bought: Fill, sold: Fill)
    requires e.Valid() && size.approved && size.notional > 0.0 && m > 0.0 && symbol !in b.positions
    requires e.ExecuteMarketBuy(symbol, size, m, at) == Filled(Order(symbol, BUY, size.notional, at), bought)
    requires e.ExecuteMarketSell(symbol, bought.qty, m, later)
          == Filled(Order(symbol, SELL, Gross(sold), later), sold)
    ensures var mid := Buy(b, bought);
            mid.Ok? && Sell(mid.value, sold).Ok?
            && Sell(mid.value, sold).value.positions == b.positions
            && Sell(mid.value, sold).value.realized - b.realized
               == Survives(e, size.notional) - size.notional <= 0.0
  {
    BuyFill(e, symbol, size, m, at);
    SellFill(e, symbol, bought.qty, m, later);
    ClosesFromFlat(b, bought, sold);
    RoundTripFills(e, symbol, size, m, at, later, bought, sold);
    LossFromFactor(e, size.notional);
  }

  function Survives(e: PaperExecutor, n: real): real
    requires e.slippageBps > -10000.0
  {
    n * RoundTripFactor(e)
  }

  lemma LossFromFactor(e: PaperExecutor, n: real)
    requires e.Valid() && n > 0.0
    ensures Survives(e, n) <= n
  {
    FactorAtMostOne(e);
    MulMono(n, RoundTripFactor(e), 1.0);
  }

  lemma RoundTripProceeds(e: PaperExecutor, n: real, m: real, bought: Fill, sold: Fill)
    requires e.Valid() && n > 0.0 && bought.qty == sold.qty > 0.0 && Gross(sold) > 0.0
    requires bought.price == e.ApplySlippage(m, BUY) && sold.price == e.ApplySlippage(m, SELL)
    requires Gross(bought) == n - e.FeeOn(n) && sold.fee == e.FeeOn(Gross(sold))
    ensures Gross(sold) - sold.fee == Survives(e, n)
  {
    RateFacts(e, n);
    RateFacts(e, Gross(sold));
    var r := SpreadRatio(e);
    DivMul(e.SlippageFactor(SELL), e.SlippageFactor(BUY));
    ProceedsAlgebra(n, m, bought.qty, e.SlippageFactor(BUY), e.SlippageFactor(SELL), e.KeepRate(), r);
  }

  lemma RoundTripFills(e: PaperExecutor, symbol: string, size: Size, m: real, at: int, later: int,
                       bought: Fill, sold: Fill)
    requires e.Valid() && size.approved && size.notional > 0.0 && m > 0.0
    requires e.ExecuteMarketBuy(symbol, size, m, at) == Filled(Order(symbol, BUY, size.notional, at), bought)
    requires e.ExecuteMarketSell(symbol, bought.qty, m, later)
          == Filled(Order(symbol, SELL, Gross(sold), later), sold)
    ensures Gross(sold) - sold.fee - Gross(bought) - bought.fee == Survives(e, size.notional) - size.notional
  {
    BuyFill(e, symbol, size, m, at);
    SellFill(e, symbol, bought.qty, m, later);
    MulPos(bought.qty, sold.price);
    RoundTripProceeds(e, size.notional, m, bought, sold);
  }

  lemma ClosesFromFlat(b: Book, bought: Fill, sold: Fill)
    requires bought.symbol == sold.symbol && sold.symbol !in b.positions && bought.side == BUY && sold.side == SELL
    requires bought.qty == sold.qty > 0.0 && bought.price >= 0.0 && bought.fee >= 0.0
    ensures var mid := Buy(b, bought);
            mid.Ok? && Sell(mid.value, sold).Ok?
            && Sell(mid.value, sold).value.positions == b.positions
            && Sell(mid.value, sold).value.realized - b.realized
               == Gross(sold) - sold.fee - Gross(bought) - bought.fee
  {
    assert Buy(b, bought).value.positions - {sold.symbol} == b.positions;
    ClosePnl(Opened(bought), sold);
    assert Cost(Opened(bought)) == Gross(bought);
  }

  // ----- the loss actually risked -----

  /** What a sized BUY buys, before any bound on the loss. */
  lemma SizedBuy(e: PaperExecutor, c: Candidate, d: Decision, p: RiskProfile, equity: real,
                 minNotional: real, m: real, at: int)
    requires e.Valid() && minNotional > 0.0 && m > 0.0
    requires CalculatePositionSize(c, d, p, equity, minNotional).approved
    ensures var z := CalculatePositionSize(c, d, p, equity, minNotional);
            var f := e.ExecuteMarketBuy(c.symbol, z, m, at).fill;
            f.price > 0.0 && f.qty * f.price == z.notional * e.KeepRate() && e.KeepRate() > 0.0
  {
    var z := CalculatePositionSize(c, d, p, equity, minNotional);
    SizeBounds(c, d, p, equity, minNotional);
    RateFacts(e, z.notional);
    BuyFill(e, c.symbol, z, m, at);
    var f := e.ExecuteMarketBuy(c.symbol, z, m, at).fill;
    assert Gross(f) == f.qty * f.price;
  }

  lemma LossScaled(q: real, price: real, n: real, keep: real, dist: real, cap: real, entry: real)
    requires price > 0.0 && keep > 0.0 && cap >= 0.0 && q * price == n * keep
    requires n * dist <= cap * entry && entry * keep <= price
    ensures q * dist <= cap
  {
    MulMono(keep, n * dist, cap * entry);
    MulMono(cap, entry * keep, price);
    assert q * dist * price == n * dist * keep;
    assert cap * entry * keep == cap * (entry * keep);
    if q * dist > cap { MulPos(q * dist - cap, price); }
  }

  lemma LossUnscaled(q: real, price: real, n: real, keep: real, dist: real, cap: real, entry: real)
    requires price > 0.0 && cap > 0.0 && q * price == n * keep
    requires n * dist == cap * entry && entry * keep > price
    ensures q * dist > cap
  {
    assert q * dist * price == n * dist * keep;
    assert cap * entry * keep == cap * (entry * keep);
    MulPos(cap, entry * keep - price);
    if q * dist <= cap { MulMono(price, q * dist, cap); }
  }

  /** A bought size in the terms of the loss bound. */
  ghost predicate SizedFill(f: Fill, notional: real, keep: real, dist: real, allowed: real, entry: real, cap: real) {
    && f.price > 0.0 && keep > 0.0 && f.qty * f.price == notional * keep
    && notional * dist <= allowed * entry && (notional < cap ==> notional * dist == allowed * entry)
  }

  lemma SizedFillFacts(e: PaperExecutor, c: Candidate, d: Decision, p: RiskProfile, equity: real,
                       minNotional: real, m: real, at: int)
    requires e.Valid() && minNotional > 0.0 && m > 0.0
    requires CalculatePositionSize(c, d, p, equity, minNotional).approved
    ensures var z := CalculatePositionSize(c, d, p, equity, minNotional);
            z.maxLoss == MaxLoss(equity, p)
            && SizedFill(e.ExecuteMarketBuy(c.symbol, z, m, at).fill, z.notional, e.KeepRate(), c.entry - c.stop,
                         d.multiplier * z.maxLoss, c.entry, SymbolCap(equity, p))
  {
    SizeBounds(c, d, p, equity, minNotional);
    SizedBuy(e, c, d, p, equity, minNotional, m, at);
  }

  lemma SizedLoss(f: Fill, notional: real, keep: real, dist: real, allowed: real, entry: real, cap: real)
    requires SizedFill(f, notional, keep, dist, allowed, entry, cap) && allowed >= 0.0
    ensures entry * keep <= f.price ==> f.qty * dist <= allowed
    ensures allowed > 0.0 && notional < cap ==> (f.qty * dist <= allowed <==> entry * keep <= f.price)
  {
    if entry * keep <= f.price {
      LossScaled(f.qty, f.price, notional, keep, dist, allowed, entry);
    } else if allowed > 0.0 && notional < cap {
      LossUnscaled(f.qty, f.price, notional, keep, dist, allowed, entry);
    }
  }

  /** Loss bound: bought at a price no lower than the entry reference less the fee share, the quantity
      cannot lose more at the stop than the allowed loss. The condition is exact whenever the symbol cap does
      not bind: any lower fill price breaks the bound. */
  lemma LossBound(e: PaperExecutor, c: Candidate, d: Decision, p: RiskProfile, equity: real,
                  minNotional: real, m: real, at: int)
    requires e.Valid() && minNotional > 0.0 && m > 0.0 && d.multiplier * MaxLoss(equity, p) >= 0.0
    requires CalculatePositionSize(c, d, p, equity, minNotional).approved
    ensures var z := CalculatePositionSize(c, d, p, equity, minNotional);
            var f, allowed := e.ExecuteMarketBuy(c.symbol, z, m, at).fill, d.multiplier * z.maxLoss;
            (c.entry * e.KeepRate() <= f.price ==> f.qty * (c.entry - c.stop) <= allowed)
            && (allowed > 0.0 && z.notional < SymbolCap(equity, p)
                ==> (f.qty * (c.entry - c.stop) <= allowed <==> c.entry * e.KeepRate() <= f.price))
  {
    var z := CalculatePositionSize(c, d, p, equity, minNotional);
    SizedFillFacts(e, c, d, p, equity, minNotional, m, at);
    SizedLoss(e.ExecuteMarketBuy(c.symbol, z, m, at).fill, z.notional, e.KeepRate(), c.entry - c.stop,
              d.multiplier * z.maxLoss, c.entry, SymbolCap(equity, p));
  }
}
