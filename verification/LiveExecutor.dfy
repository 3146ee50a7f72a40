/** trading/execution/live_executor.py: placing a market order on an exchange that accepts each client order id
    at most once, over a network that can lose either half of a request. */
module LiveExecution {
  import opened Prelude
  import opened Decimals
  import opened BinanceOrderFilters

  // ----- client order ids -----

  function ClientOrderId(strategy: string, cycle: string, symbol: string): string {
    strategy + "-" + (cycle + "-" + (symbol + "-1"))
  }

  predicate NoDash(s: string) { '-' !in s }

  lemma DashAfter(a: string, x: string)
    requires NoDash(a)
    ensures var s := a + "-" + x;
            |s| > |a| && s[|a|] == '-' && s[..|a|] == a && s[|a| + 1..] == x
            && forall n :: 0 <= n < |a| ==> s[n] != '-'
  {
    forall n | 0 <= n < |a| ensures a[n] != '-' { assert a[n] in a; }
  }

  /** What stands before the first dash, and after it, is determined. */
  lemma FirstDash(a: string, x: string, b: string, y: string)
    requires NoDash(a) && NoDash(b) && a + "-" + x == b + "-" + y
    ensures a == b && x == y
  {
    DashAfter(a, x);
    DashAfter(b, y);
  }

  lemma DashBefore(x: string, a: string)
    requires NoDash(a)
    ensures var s := x + "-" + a;
            |s| > |x| && s[|x|] == '-' && s[..|x|] == x && s[|x| + 1..] == a
            && forall n :: |x| < n < |s| ==> s[n] != '-'
  {
    forall n | 0 <= n < |a| ensures a[n] != '-' { assert a[n] in a; }
  }

  /** What stands before the last dash, and after it, is determined. */
  lemma LastDash(x: string, a: string, y: string, b: string)
    requires NoDash(a) && NoDash(b) && x + "-" + a == y + "-" + b
    ensures a == b && x == y
  {
    DashBefore(x, a);
    DashBefore(y, b);
  }

  /** Ids are injective when strategy and symbol contain no dash, although cycle ids do. */
  lemma IdsInjective(strategy: string, cycle: string, symbol: string,
                     strategy': string, cycle': string, symbol': string)
    requires NoDash(strategy) && NoDash(symbol) && NoDash(strategy') && NoDash(symbol')
    requires ClientOrderId(strategy, cycle, symbol) == ClientOrderId(strategy', cycle', symbol')
    ensures strategy == strategy' && cycle == cycle' && symbol == symbol'
  {
    var rest, rest' := cycle + "-" + (symbol + "-1"), cycle' + "-" + (symbol' + "-1");
    assert strategy + "-" + rest == ClientOrderId(strategy, cycle, symbol);
    assert strategy' + "-" + rest' == ClientOrderId(strategy', cycle', symbol');
    FirstDash(strategy, rest, strategy', rest');
    var pair, pair' := cycle + "-" + symbol, cycle' + "-" + symbol';
    assert rest == pair + "-" + "1" && rest' == pair' + "-" + "1";
    LastDash(pair, "1", pair', "1");
    LastDash(cycle, symbol, cycle', symbol');
  }

  /** A symbol with a dash shares its ids with another symbol's cycles. */
  lemma SymbolDashCollides(strategy: string, cycle: string, symbol: string, n: nat)
    requires n < |symbol| && symbol[n] == '-'
    ensures ClientOrderId(strategy, cycle, symbol)
         == ClientOrderId(strategy, cycle + "-" + symbol[..n], symbol[n + 1..])
    ensures symbol[n + 1..] != symbol
  {
    var a, b := symbol[..n], symbol[n + 1..];
    assert symbol == a + "-" + b;
    assert cycle + "-" + (symbol + "-1") == cycle + "-" + a + "-" + (b + "-1");
  }

  /** A strategy name with a dash shares its ids with another strategy's cycles. */
  lemma DashCollides(strategy: string, cycle: string, symbol: string, n: nat)
    requires n < |strategy| && strategy[n] == '-'
    ensures ClientOrderId(strategy, cycle, symbol)
         == ClientOrderId(strategy[..n], strategy[n + 1..] + "-" + cycle, symbol)
    ensures strategy[..n] != strategy
  {
    assert strategy == strategy[..n] + "-" + strategy[n + 1..];
  }

  /** Strategy, cycle, symbol and the attempt number. */
  lemma IdExample()
    ensures ClientOrderId("mtm", "2024-01-01", "BTCUSDT") == "mtm-2024-01-01-BTCUSDT-1"
  {}

  // ----- the exchange -----

  datatype Order = Order(id: string, symbol: string, side: string, qty: Dec)

  datatype Reply =
    | Answer              // the exchange's own answer arrives
    | HttpFailure(code: int)
    | NetworkFailure
    | Garbled             // anything else that raises, such as an unreadable body
    | Unusable            // the exchange's own answer, with fields that cannot be interpreted

  /** The adversary's choice for one request: whether it reaches the exchange, what comes back, and the status
      the exchange reports if it is asked. */
  datatype Fate = Fate(reaches: bool, reply: Reply, status: string)

  predicate Answered(reply: Reply) { reply == Answer || reply == Unusable }

  predicate Arrives(f: Fate) { f.reaches || Answered(f.reply) }

  predicate HasId(book: seq<Order>, id: string) { exists n :: 0 <= n < |book| && book[n].id == id }

  const DUPLICATE_CODE := 400
  const NOT_FOUND_CODE := 400

  /** The orders the exchange has accepted, after a POST. */
  function Accepted(book: seq<Order>, o: Order, f: Fate): seq<Order> {
    if Arrives(f) && !HasId(book, o.id) then book + [o] else book
  }

  function PostReply(book: seq<Order>, o: Order, f: Fate): Reply {
    if Answered(f.reply) && HasId(book, o.id) then HttpFailure(DUPLICATE_CODE) else f.reply
  }

  function GetReply(book: seq<Order>, id: string, f: Fate): Reply {
    if Answered(f.reply) && !HasId(book, id) then HttpFailure(NOT_FOUND_CODE) else f.reply
  }

  datatype Request = Post(order: Order) | Get(symbol: string, id: string)

  // ----- results -----

  datatype Status = Acked | PartiallyFilled | Filled | Canceled | Rejected | Expired | Failed | PendingUnknown

  datatype Code =
    | Success | NetworkError | ExchangeHttpError | InternalError | LiveTradingDisabled | SymbolNotAllowed
    | FilterValidationFailed | ExchangeInfoUnavailable | PendingUnknownError

  datatype Execution = Execution(status: Status, code: Code, id: Option<string>, retriable: bool)

  /** An exception that leaves the executor. */
  datatype Raised = Raised

  function LifecycleStatus(status: string): Status {
    if status == "NEW" then Acked
    else if status == "PARTIALLY_FILLED" then PartiallyFilled
    else if status == "FILLED" then Filled
    else if status == "CANCELED" then Canceled
    else if status == "REJECTED" then Rejected
    else if status == "EXPIRED" then Expired
    else Failed
  }

  /** The fills of an accepted order are added up outside the guarded block, so a bad quantity raises. */
  function Submitted(reply: Reply, status: string, id: string): Result<Execution, Raised> {
    match reply
    case Answer => Ok(Execution(LifecycleStatus(status), Success, Some(id), false))
    case HttpFailure(code) => Ok(Execution(Rejected, ExchangeHttpError, Some(id), code >= 429))
    case NetworkFailure => Ok(Execution(PendingUnknown, NetworkError, Some(id), true))
    case Garbled => Ok(Execution(Failed, InternalError, Some(id), false))
    case Unusable => Err(Raised)
  }

  function Resolved(reply: Reply, status: string, id: string): Result<Execution, Raised> {
    match reply
    case Answer => Ok(Execution(LifecycleStatus(status), Success, Some(id), false))
    case HttpFailure(_) => Ok(Execution(PendingUnknown, ExchangeHttpError, Some(id), true))
    case NetworkFailure => Ok(Execution(PendingUnknown, PendingUnknownError, Some(id), true))
    case Garbled | Unusable => Err(Raised)
  }

  /** The exchange answers a POST exactly if it takes the order, and a query exactly if it has the order; otherwise
      it answers with status 400. */
  lemma AnswersAreTrue(book: seq<Order>, o: Order, id: string, f: Fate)
    requires f.reply.Answer? || f.reply.Unusable?
    ensures PostReply(book, o, f) == if HasId(book, o.id) then HttpFailure(400) else f.reply
    ensures HasId(Accepted(book, o, f), o.id)
    ensures GetReply(book, id, f) == if HasId(book, id) then f.reply else HttpFailure(400)
  {
    if !HasId(book, o.id) { assert (book + [o])[|book|].id == o.id; }
  }

  /** What the adversary returns in its place arrives as it is, and the order is there if it got through. */
  lemma FailuresArrive(book: seq<Order>, o: Order, id: string, f: Fate)
    requires !f.reply.Answer? && !f.reply.Unusable?
    ensures PostReply(book, o, f) == f.reply && GetReply(book, id, f) == f.reply
    ensures HasId(Accepted(book, o, f), o.id) <==> HasId(book, o.id) || f.reaches
  {
    if f.reaches && !HasId(book, o.id) { assert (book + [o])[|book|].id == o.id; }
  }

  /** After the POST alone, a retry is offered for a network error and for a status of 429 or more. */
  lemma RetriableAfterPost(reply: Reply, status: string, id: string)
    ensures var r := Submitted(reply, status, id);
            && (r.Err? <==> reply.Unusable?)
            && (r.Ok? ==> (r.value.retriable <==> reply.NetworkFailure? || (reply.HttpFailure? && reply.code >= 429)))
            && (r.Ok? ==> (r.value.status == PendingUnknown <==> reply.NetworkFailure?))
  {}

  // ----- one call, as a function -----

  /** A body that turns out to be unreadable halfway leaves what was read before in the cache. */
  datatype InfoReply =
    | Infos(infos: seq<SymbolInfo>)
    | InfoHttpFailure
    | InfoNetworkFailure
    | InfoGarbled(infos: seq<SymbolInfo>)

  datatype Call = Call(symbol: string, side: string, qty: Dec, price: Dec, strategy: string, cycle: string)

  datatype Net = Net(info: InfoReply, post: Fate, get: Fate)

  datatype Config = Config(allowed: seq<string>, liveTradingEnabled: bool)

  /** The executor's cache and flag, and the exchange's book. */
  datatype World = World(cache: map<string, SymbolFilters>, fetched: bool, book: seq<Order>)

  datatype Placement = Placement(world: World, requests: seq<Request>, result: Result<Execution, Raised>)

  function IdOf(c: Call): string { ClientOrderId(c.strategy, c.cycle, c.symbol) }

  function Refused(w: World, code: Code, retriable: bool): Placement {
    Placement(w, [], Ok(Execution(Failed, code, None, retriable)))
  }

  function OrderFor(c: Call, qty: Dec): Order { Order(IdOf(c), c.symbol, c.side, qty) }

  function Send(w: World, c: Call, o: Order, net: Net): Placement {
    var book := Accepted(w.book, o, net.post);
    var submitted := Submitted(PostReply(w.book, o, net.post), net.post.status, o.id);
    if submitted.Ok? && submitted.value.status == PendingUnknown then
      Placement(w.(book := book), [Post(o), Get(c.symbol, o.id)],
                Resolved(GetReply(book, o.id, net.get), net.get.status, o.id))
    else Placement(w.(book := book), [Post(o)], submitted)
  }

  function Known(g: Config, w: World, info: InfoReply): World {
    if w.fetched || !(info.Infos? || info.InfoGarbled?) then w
    else w.(cache := Cached(w.cache, info.infos, Some(g.allowed)), fetched := info.Infos?)
  }

  /** The filters are fetched once, for the allowed symbols. A body that breaks off leaves what was read before it
      did, and they are fetched again. */
  lemma FetchedOnce(g: Config, w: World, info: InfoReply, s: string)
    ensures var known := Known(g, w, info);
            && (w.fetched || info.InfoHttpFailure? || info.InfoNetworkFailure? ==> known == w)
            && (!w.fetched && (info.Infos? || info.InfoGarbled?) ==>
                  && known.book == w.book && known.fetched == info.Infos?
                  && LastEntryDecides(w.cache, known.cache, info.infos, Some(g.allowed), s))
  {
    if info.Infos? || info.InfoGarbled? { CachedLast(w.cache, info.infos, Some(g.allowed), s); }
  }

  function Place(g: Config, w: World, c: Call, net: Net): Placement {
    if !g.liveTradingEnabled then Refused(w, LiveTradingDisabled, false)
    else if c.symbol !in g.allowed then Refused(w, SymbolNotAllowed, false)
    else if !w.fetched && net.info.InfoGarbled? then Placement(Known(g, w, net.info), [], Err(Raised))
    else if !w.fetched && !net.info.Infos? then Refused(w, ExchangeInfoUnavailable, true)
    else
      var known := Known(g, w, net.info);
      match ApplyFilters(known.cache, c.symbol, c.qty, c.price)
      case None => Refused(known, FilterValidationFailed, false)
      case Some(f) => Send(known, c, OrderFor(c, f.qty), net)
  }

  // ----- the executor -----

  class Exchange {
    var book: seq<Order>
    var requests: seq<Request>

    constructor ()
      ensures book == [] && requests == []
    {
      book, requests := [], [];
    }

    method PostOrder(o: Order, f: Fate) returns (reply: Reply)
      modifies this
      ensures book == Accepted(old(book), o, f) && reply == PostReply(old(book), o, f)
      ensures requests == old(requests) + [Post(o)]
    {
      requests := requests + [Post(o)];
      var duplicate := exists n :: 0 <= n < |book| && book[n].id == o.id;
      if Arrives(f) && !duplicate { book := book + [o]; }
      reply := if Answered(f.reply) && duplicate then HttpFailure(DUPLICATE_CODE) else f.reply;
    }

    method GetOrder(symbol: string, id: string, f: Fate) returns (reply: Reply)
      modifies this
      ensures book == old(book) && reply == GetReply(book, id, f)
      ensures requests == old(requests) + [Get(symbol, id)]
    {
      requests := requests + [Get(symbol, id)];
      reply := if Answered(f.reply) && !HasId(book, id) then HttpFailure(NOT_FOUND_CODE) else f.reply;
    }
  }

  class LiveExecutor {
    const config: Config
    const filters: BinanceFilters
    const exchange: Exchange
    var infoFetched: bool

    constructor (g: Config, filters: BinanceFilters, exchange: Exchange)
      ensures config == g && this.filters == filters && this.exchange == exchange && !infoFetched
    {
      config, this.filters, this.exchange, infoFetched := g, filters, exchange, false;
    }

    function Snapshot(): World
      reads this, filters, exchange
    {
      World(filters.cache, infoFetched, exchange.book)
    }

    method EnsureExchangeInfo(info: InfoReply) returns (failure: Option<InfoReply>)
      modifies this, filters
      ensures failure == if old(infoFetched) || info.Infos? then None else Some(info)
      ensures World(filters.cache, infoFetched, [])
           == Known(config, World(old(filters.cache), old(infoFetched), []), info)
    {
      if infoFetched { return None; }
      if info.InfoHttpFailure? || info.InfoNetworkFailure? { return Some(info); }
      filters.Store(info.infos, Some(config.allowed));
      if info.InfoGarbled? { return Some(info); }
      infoFetched := true;
      return None;
    }

    method SubmitOrder(c: Call, qty: Dec, net: Net) returns (r: Result<Execution, Raised>)
      modifies exchange
      ensures var o := OrderFor(c, qty);
              r == Submitted(PostReply(old(exchange.book), o, net.post), net.post.status, o.id)
              && exchange.book == Accepted(old(exchange.book), o, net.post)
              && exchange.requests == old(exchange.requests) + [Post(o)]
    {
      var id := ClientOrderId(c.strategy, c.cycle, c.symbol);
      var reply := exchange.PostOrder(Order(id, c.symbol, c.side, qty), net.post);
      match reply
      case HttpFailure(code) => r := Ok(Execution(Rejected, ExchangeHttpError, Some(id), code >= 429));
      case NetworkFailure => r := Ok(Execution(PendingUnknown, NetworkError, Some(id), true));
      case Garbled => r := Ok(Execution(Failed, InternalError, Some(id), false));
      case Unusable => r := Err(Raised);
      case Answer => r := Ok(Execution(LifecycleStatus(net.post.status), Success, Some(id), false));
    }

    method ResolvePendingUnknown(symbol: string, id: string, net: Net) returns (r: Result<Execution, Raised>)
      modifies exchange
      ensures r == Resolved(GetReply(old(exchange.book), id, net.get), net.get.status, id)
      ensures exchange.book == old(exchange.book) && exchange.requests == old(exchange.requests) + [Get(symbol, id)]
    {
      var reply := exchange.GetOrder(symbol, id, net.get);
      match reply
      case HttpFailure(_) => r := Ok(Execution(PendingUnknown, ExchangeHttpError, Some(id), true));
      case NetworkFailure => r := Ok(Execution(PendingUnknown, PendingUnknownError, Some(id), true));
      case Garbled | Unusable => r := Err(Raised);
      case Answer => r := Ok(Execution(LifecycleStatus(net.get.status), Success, Some(id), false));
    }

    method PlaceMarketOrder(c: Call, net: Net) returns (r: Result<Execution, Raised>)
      modifies this, filters, exchange
      ensures var p := Place(config, old(Snapshot()), c, net);
              Snapshot() == p.world && r == p.result && exchange.requests == old(exchange.requests) + p.requests
    {
      assert exchange.requests + [] == exchange.requests;
      if !config.liveTradingEnabled { return Ok(Execution(Failed, LiveTradingDisabled, None, false)); }
      if c.symbol !in config.allowed { return Ok(Execution(Failed, SymbolNotAllowed, None, false)); }
      var failure := EnsureExchangeInfo(net.info);
      if failure != None {
        if failure.value.InfoGarbled? { return Err(Raised); }
        return Ok(Execution(Failed, ExchangeInfoUnavailable, None, true));
      }
      var formatted := ApplyFilters(filters.cache, c.symbol, c.qty, c.price);
      if formatted == None { return Ok(Execution(Failed, FilterValidationFailed, None, false)); }
      var submitted := SubmitOrder(c, formatted.value.qty, net);
      if submitted.Ok? && submitted.value.status == PendingUnknown {
        var resolved := ResolvePendingUnknown(c.symbol, submitted.value.id.value, net);
        return resolved;
      }
      return submitted;
    }
  }

  // ----- what every call keeps -----

  /** The exchange never holds two orders of one id. */
  predicate Unique(book: seq<Order>) { forall m, n :: 0 <= m < n < |book| ==> book[m].id != book[n].id }

  lemma AcceptedUnique(book: seq<Order>, o: Order, f: Fate)
    requires Unique(book)
    ensures Unique(Accepted(book, o, f)) && book <= Accepted(book, o, f)
  {}

  /** Each call sends at most one POST, and one GET only after a network error on the POST. Whatever it posts
      carries its own id and a positive quantity no larger than requested that reaches the minimum notional and
      that the filters leave alone. */
  lemma CallRequests(g: Config, w: World, c: Call, net: Net)
    ensures var p := Place(g, w, c, net);
            && |p.requests| <= 2
            && (|p.requests| >= 1 ==>
                  p.requests[0].Post? && Honest(Known(g, w, net.info), c, p.requests[0].order))
            && (|p.requests| == 2 <==>
                  |p.requests| >= 1
                  && PostReply(w.book, p.requests[0].order, net.post) == NetworkFailure)
            && (|p.requests| == 2 ==> p.requests[1] == Get(c.symbol, IdOf(c)))
  {
    var p, known := Place(g, w, c, net), Known(g, w, net.info);
    if |p.requests| >= 1 { PassedOrder(known.cache, c.symbol, c.qty, c.price); }
  }

  predicate Honest(known: World, c: Call, o: Order) {
    && o.id == c.strategy + "-" + c.cycle + "-" + c.symbol + "-1" && o.symbol == c.symbol && o.side == c.side
    && c.symbol in known.cache && o.qty.coef > 0 && AtMost(o.qty, c.qty)
    && (c.price.coef >= 0 ==> AtMost(known.cache[c.symbol].minNotional, Times(o.qty, c.price)))
    && Quantize(o.qty, known.cache[c.symbol].stepSize) == o.qty
  }

  /** A call only ever adds an order with its own id, and a result marked successful means the exchange has it. */
  lemma CallBook(g: Config, w: World, c: Call, net: Net)
    requires Unique(w.book)
    ensures var p := Place(g, w, c, net);
            && Unique(p.world.book)
            && (p.world.book == w.book
                || (!HasId(w.book, IdOf(c)) && |p.world.book| == |w.book| + 1 && w.book == p.world.book[..|w.book|]
                    && p.world.book[|w.book|].id == IdOf(c)))
            && (p.result.Ok? && p.result.value.code == Success ==>
                  p.result.value.id == Some(IdOf(c)) && HasId(p.world.book, IdOf(c)))
  {
    var p, known := Place(g, w, c, net), Known(g, w, net.info);
    if |p.requests| >= 1 {
      var o := p.requests[0].order;
      AcceptedUnique(w.book, o, net.post);
      if Arrives(net.post) && !HasId(w.book, o.id) { assert p.world.book[|w.book|].id == o.id; }
    }
  }

  /** A result can be retried exactly when no exchange information could be fetched, the fate of the order is
      unknown, or the exchange refused it with a status from 429 up; and its fate is unknown exactly when the
      POST met a network error and the query did not find the order. */
  lemma RetriableIff(g: Config, w: World, c: Call, net: Net)
    requires Place(g, w, c, net).result.Ok?
    ensures var p := Place(g, w, c, net);
            var x := p.result.value;
            && (x.status == PendingUnknown <==> |p.requests| == 2 && x.code != Success)
            && (x.retriable <==> x.code == ExchangeInfoUnavailable || x.status == PendingUnknown
                                 || (x.status == Rejected && x.code == ExchangeHttpError
                                     && PostReply(w.book, p.requests[0].order, net.post).code >= 429))
            && (x.code == ExchangeHttpError && x.status == Rejected
                ==> |p.requests| == 1 && PostReply(w.book, p.requests[0].order, net.post).HttpFailure?)
  {
    var p := Place(g, w, c, net);
    if |p.requests| >= 1 { assert p == Send(Known(g, w, net.info), c, p.requests[0].order, net); }
  }

  /** The status the exchange reported in the answer that counts: to the POST, or to the query after it. */
  function Reported(p: Placement, net: Net): string {
    if |p.requests| == 1 then net.post.status else net.get.status
  }

  lemma SixStatuses(x: string)
    ensures var y := LifecycleStatus(x);
            && (y == Acked <==> x == "NEW") && (y == PartiallyFilled <==> x == "PARTIALLY_FILLED")
            && (y == Filled <==> x == "FILLED") && (y == Canceled <==> x == "CANCELED")
            && (y == Rejected <==> x == "REJECTED") && (y == Expired <==> x == "EXPIRED")
            && (y == Failed <==> x !in {"NEW", "PARTIALLY_FILLED", "FILLED", "CANCELED", "REJECTED", "EXPIRED"})
  {
    assert "CANCELED"[0] == 'C' && "REJECTED"[0] == 'R';
    assert |"NEW"| == 3 && |"PARTIALLY_FILLED"| == 16 && |"FILLED"| == 6 && |"EXPIRED"| == 7;
    assert |"CANCELED"| == 8 && |"REJECTED"| == 8;
  }

  /** A result marked successful has the status that the exchange reported, one of six, and is failed exactly for
      any other. */
  lemma AnsweredStatus(g: Config, w: World, c: Call, net: Net)
    requires Place(g, w, c, net).result.Ok? && Place(g, w, c, net).result.value.code == Success
    ensures var p := Place(g, w, c, net);
            var y, x := p.result.value.status, Reported(p, net);
            && |p.requests| in {1, 2} && !p.result.value.retriable && p.result.value.id == Some(IdOf(c))
            && (y == Acked <==> x == "NEW") && (y == PartiallyFilled <==> x == "PARTIALLY_FILLED")
            && (y == Filled <==> x == "FILLED") && (y == Canceled <==> x == "CANCELED")
            && (y == Rejected <==> x == "REJECTED") && (y == Expired <==> x == "EXPIRED")
            && (y == Failed <==> x !in {"NEW", "PARTIALLY_FILLED", "FILLED", "CANCELED", "REJECTED", "EXPIRED"})
  {
    var p := Place(g, w, c, net);
    assert |p.requests| >= 1;
    assert p == Send(Known(g, w, net.info), c, p.requests[0].order, net);
    SixStatuses(net.post.status);
    SixStatuses(net.get.status);
  }

  /** A call that sends nothing says why: trading is off, the symbol is not allowed, the exchange information
      could not be fetched, or the order does not pass the filters, in this order; only the third can be retried. */
  lemma RefusedIs(g: Config, w: World, c: Call, net: Net)
    ensures var p, known := Place(g, w, c, net), Known(g, w, net.info);
            var passes := ApplyFilters(known.cache, c.symbol, c.qty, c.price) != None;
            && (p.requests == [] && p.result.Ok? ==>
                  p.result.value.status == Failed && p.result.value.id == None && p.world.book == w.book)
            && (p.requests == [] && p.result.Ok? && p.result.value.code == LiveTradingDisabled
                <==> !g.liveTradingEnabled)
            && (p.requests == [] && p.result.Ok? && p.result.value.code == SymbolNotAllowed
                <==> g.liveTradingEnabled && c.symbol !in g.allowed)
            && (p.requests == [] && p.result.Ok? && p.result.value.code == ExchangeInfoUnavailable
                <==> g.liveTradingEnabled && c.symbol in g.allowed && !w.fetched
                     && (net.info.InfoHttpFailure? || net.info.InfoNetworkFailure?))
            && (p.requests == [] && p.result.Ok? && p.result.value.code == FilterValidationFailed
                <==> g.liveTradingEnabled && c.symbol in g.allowed && (w.fetched || net.info.Infos?) && !passes)
            && (p.requests != [] <==> g.liveTradingEnabled && c.symbol in g.allowed && (w.fetched || net.info.Infos?)
                                      && passes)
  {}

  /** The failures of a call that sent something: one table for the POST alone, one for the query after it. */
  lemma SentFailures(g: Config, w: World, c: Call, net: Net)
    ensures var p := Place(g, w, c, net);
            && (|p.requests| == 1 ==>
                  match PostReply(w.book, p.requests[0].order, net.post)
                  case HttpFailure(code) =>
                    p.result == Ok(Execution(Rejected, ExchangeHttpError, Some(IdOf(c)), code >= 429))
                  case Garbled => p.result == Ok(Execution(Failed, InternalError, Some(IdOf(c)), false))
                  case Unusable => p.result.Err?
                  case NetworkFailure => false
                  case Answer => p.result.Ok? && p.result.value.code == Success)
            && (|p.requests| == 2 ==>
                  match GetReply(p.world.book, IdOf(c), net.get)
                  case HttpFailure(_) =>
                    p.result == Ok(Execution(PendingUnknown, ExchangeHttpError, Some(IdOf(c)), true))
                  case NetworkFailure =>
                    p.result == Ok(Execution(PendingUnknown, PendingUnknownError, Some(IdOf(c)), true))
                  case Garbled | Unusable => p.result.Err?
                  case Answer => p.result.Ok? && p.result.value.code == Success)
  {
    var p := Place(g, w, c, net);
    if |p.requests| >= 1 { assert p == Send(Known(g, w, net.info), c, p.requests[0].order, net); }
  }

  /** The executor lets an exception out exactly for an unreadable exchange-info body, for an answer to the POST
      that cannot be interpreted, and for an answer to the query that cannot be read or interpreted. */
  lemma RaisedIff(g: Config, w: World, c: Call, net: Net)
    ensures var p := Place(g, w, c, net);
            p.result.Err? <==> || (g.liveTradingEnabled && c.symbol in g.allowed && !w.fetched && net.info.InfoGarbled?)
                               || (|p.requests| == 1 && PostReply(w.book, p.requests[0].order, net.post) == Unusable)
                               || (|p.requests| == 2
                                   && GetReply(p.world.book, IdOf(c), net.get) in {Garbled, Unusable})
  {
    var p := Place(g, w, c, net);
    if |p.requests| >= 1 { assert p == Send(Known(g, w, net.info), c, p.requests[0].order, net); }
  }

  datatype Attempt = Attempt(call: Call, net: Net)

  function PlaceAll(g: Config, w: World, attempts: seq<Attempt>): World {
    if |attempts| == 0 then w
    else
      var last := attempts[|attempts| - 1];
      Place(g, PlaceAll(g, w, attempts[..|attempts| - 1]), last.call, last.net).world
  }

  function Count(book: seq<Order>, id: string): nat {
    if |book| == 0 then 0 else Count(book[..|book| - 1], id) + if book[|book| - 1].id == id then 1 else 0
  }

  lemma {:induction false} CountUnique(book: seq<Order>, id: string)
    requires Unique(book)
    ensures Count(book, id) == if HasId(book, id) then 1 else 0
  {
    if |book| != 0 {
      var front, last := book[..|book| - 1], book[|book| - 1];
      CountUnique(front, id);
      if HasId(front, id) {
        var n :| 0 <= n < |front| && front[n].id == id;
        assert book[n].id == id;
      }
      if last.id != id && HasId(book, id) {
        var n :| 0 <= n < |book| && book[n].id == id;
        assert front[n].id == id;
      }
    }
  }

  lemma {:induction false} AlwaysUnique(g: Config, w: World, attempts: seq<Attempt>)
    requires Unique(w.book)
    ensures Unique(PlaceAll(g, w, attempts).book)
  {
    if |attempts| != 0 {
      var last := attempts[|attempts| - 1];
      AlwaysUnique(g, w, attempts[..|attempts| - 1]);
      CallBook(g, PlaceAll(g, w, attempts[..|attempts| - 1]), last.call, last.net);
    }
  }

  predicate AllFor(attempts: seq<Attempt>, id: string) {
    forall n :: 0 <= n < |attempts| ==> IdOf(attempts[n].call) == id
  }

  /** Any number of calls for one strategy, cycle and symbol, with any lost requests and responses, create at
      most one order, and none if there is one already. */
  lemma {:induction false} OneOrder(g: Config, w: World, attempts: seq<Attempt>, id: string)
    requires Unique(w.book) && AllFor(attempts, id)
    ensures var book := PlaceAll(g, w, attempts).book;
            Unique(book) && Count(book, id) <= 1
            && (book == w.book || (!HasId(w.book, id) && HasId(book, id) && |book| == |w.book| + 1))
  {
    AlwaysUnique(g, w, attempts);
    CountUnique(PlaceAll(g, w, attempts).book, id);
    if |attempts| != 0 {
      var front, last := attempts[..|attempts| - 1], attempts[|attempts| - 1];
      assert forall n :: 0 <= n < |front| ==> front[n] == attempts[n];
      OneOrder(g, w, front, id);
      AlwaysUnique(g, w, front);
      CallBook(g, PlaceAll(g, w, front), last.call, last.net);
    }
  }

  // ----- when a failure is final and the order is live all the same -----

  predicate Posted(p: Placement) { |p.requests| >= 1 }

  /** After any call, the exchange has the order exactly if it had it before or the POST got there. */
  lemma OrderLiveIff(g: Config, w: World, c: Call, net: Net)
    ensures var p := Place(g, w, c, net);
            HasId(p.world.book, IdOf(c)) <==> HasId(w.book, IdOf(c)) || (Posted(p) && Arrives(net.post))
  {
    var p, known := Place(g, w, c, net), Known(g, w, net.info);
    if Posted(p) {
      var o := p.requests[0].order;
      assert p == Send(known, c, o, net) && o.id == IdOf(c);
      if Arrives(net.post) && !HasId(w.book, o.id) { assert p.world.book[|w.book|] == o; }
    }
  }

  /** A failure that says not to try again. */
  predicate FinalFailure(p: Placement) {
    p.result.Ok? && p.result.value.code != Success && !p.result.value.retriable
  }

  /** A final failure is true, there is no order of this id, exactly if there was none before and the POST, if
      one was sent, did not reach the exchange. */
  lemma FinalFailureTrueIff(g: Config, w: World, c: Call, net: Net)
    requires FinalFailure(Place(g, w, c, net))
    ensures var p := Place(g, w, c, net);
            !HasId(p.world.book, IdOf(c)) <==> !HasId(w.book, IdOf(c)) && !(Posted(p) && net.post.reaches)
  {
    var p := Place(g, w, c, net);
    OrderLiveIff(g, w, c, net);
    if Posted(p) { assert p == Send(Known(g, w, net.info), c, p.requests[0].order, net); }
  }

  function PlacementAt(g: Config, w: World, attempts: seq<Attempt>, n: nat): Placement
    requires n < |attempts|
  {
    Place(g, PlaceAll(g, w, attempts[..n]), attempts[n].call, attempts[n].net)
  }

  /** Call n posted an order of this id and the POST got to the exchange. */
  predicate ArrivedAt(g: Config, w: World, attempts: seq<Attempt>, id: string, n: nat)
    requires n < |attempts|
  {
    IdOf(attempts[n].call) == id && Posted(PlacementAt(g, w, attempts, n)) && Arrives(attempts[n].net.post)
  }

  lemma OtherIdsStay(g: Config, w: World, c: Call, net: Net, id: string)
    requires id != IdOf(c)
    ensures HasId(Place(g, w, c, net).world.book, id) <==> HasId(w.book, id)
  {
    var p := Place(g, w, c, net);
    if Posted(p) {
      var o := p.requests[0].order;
      assert p == Send(Known(g, w, net.info), c, o, net) && o.id != id;
      BookKeepsIds(w.book, o, net.post, id);
    }
  }

  lemma BookKeepsIds(book: seq<Order>, o: Order, f: Fate, id: string)
    requires o.id != id
    ensures HasId(Accepted(book, o, f), id) <==> HasId(book, id)
  {
    var after := Accepted(book, o, f);
    if HasId(book, id) {
      var n :| 0 <= n < |book| && book[n].id == id;
      assert after[n].id == id;
    }
  }

  lemma ArrivedPrefix(g: Config, w: World, attempts: seq<Attempt>, id: string, n: nat)
    requires n + 1 < |attempts|
    ensures ArrivedAt(g, w, attempts, id, n) == ArrivedAt(g, w, attempts[..|attempts| - 1], id, n)
  {
    assert attempts[..|attempts| - 1][..n] == attempts[..n];
  }

  /** After any calls, whoever made them, the exchange has an order of an id exactly if it had one at the start
      or some POST for that id got there. */
  lemma {:induction false} LiveAfterAll(g: Config, w: World, attempts: seq<Attempt>, id: string)
    ensures HasId(PlaceAll(g, w, attempts).book, id)
            <==> HasId(w.book, id) || exists n :: 0 <= n < |attempts| && ArrivedAt(g, w, attempts, id, n)
  {
    if |attempts| != 0 {
      var m := |attempts| - 1;
      var front, last := attempts[..m], attempts[m];
      LiveAfterAll(g, w, front, id);
      forall n | 0 <= n < m ensures ArrivedAt(g, w, attempts, id, n) == ArrivedAt(g, w, front, id, n) {
        ArrivedPrefix(g, w, attempts, id, n);
      }
      LastArrival(g, w, attempts, id);
      if exists n :: 0 <= n < m && ArrivedAt(g, w, front, id, n) {
        var n :| 0 <= n < m && ArrivedAt(g, w, front, id, n);
        assert ArrivedAt(g, w, attempts, id, n);
      }
    }
  }

  lemma LastArrival(g: Config, w: World, attempts: seq<Attempt>, id: string)
    requires |attempts| != 0
    ensures var m := |attempts| - 1;
            HasId(PlaceAll(g, w, attempts).book, id)
            <==> HasId(PlaceAll(g, w, attempts[..m]).book, id) || ArrivedAt(g, w, attempts, id, m)
  {
    var m := |attempts| - 1;
    var before, last := PlaceAll(g, w, attempts[..m]), attempts[m];
    if IdOf(last.call) == id {
      OrderLiveIff(g, before, last.call, last.net);
    } else {
      OtherIdsStay(g, before, last.call, last.net, id);
    }
  }

  /** So after any calls a final failure of the last one is true exactly if the exchange had no such order at the
      start, no earlier POST for its id got there, and neither did its own. */
  lemma FinalFailureAfterAll(g: Config, w: World, attempts: seq<Attempt>)
    requires |attempts| != 0 && FinalFailure(PlacementAt(g, w, attempts, |attempts| - 1))
    ensures var m := |attempts| - 1;
            var id := IdOf(attempts[m].call);
            !HasId(PlaceAll(g, w, attempts).book, id)
            <==> !HasId(w.book, id) && (forall n :: 0 <= n < m ==> !ArrivedAt(g, w, attempts, id, n))
                 && !(Posted(PlacementAt(g, w, attempts, m)) && attempts[m].net.post.reaches)
  {
    var m := |attempts| - 1;
    var front, last := attempts[..m], attempts[m];
    var id := IdOf(last.call);
    FinalFailureTrueIff(g, PlaceAll(g, w, front), last.call, last.net);
    LiveAfterAll(g, w, front, id);
    forall n | 0 <= n < m ensures ArrivedAt(g, w, attempts, id, n) == ArrivedAt(g, w, front, id, n) {
      ArrivedPrefix(g, w, attempts, id, n);
    }
  }

  // Each cause once, on a symbol with trivial filters.

  const TRADING := Config(["S"], true)
  const OPEN := World(map["S" := SymbolFilters(Dec(0, 0), Dec(1, 0), Dec(1, 0))], true, [])
  const ONE := Call("S", "BUY", Dec(1, 0), Dec(1, 0), "s", "c")

  function Fails(post: Fate): Net { Net(InfoHttpFailure, post, Fate(false, NetworkFailure, "")) }

  lemma OneIsSent(book: seq<Order>, net: Net)
    ensures Place(TRADING, OPEN.(book := book), ONE, net)
         == Send(OPEN.(book := book), ONE, OrderFor(ONE, Dec(1, 0)), net)
  {
    var w := OPEN.(book := book);
    assert Pow10(0) == 1;
    assert Quantize(Dec(1, 0), Dec(1, 0)) == Dec(1, 0);
    assert ApplyFilters(w.cache, "S", Dec(1, 0), Dec(1, 0)) == Some(Formatted(Dec(1, 0), Dec(1, 0)));
  }

  lemma FirstOrderLive(net: Net)
    requires Arrives(net.post)
    ensures HasId(Place(TRADING, OPEN, ONE, net).world.book, IdOf(ONE))
  {
    OneIsSent([], net);
    OrderLiveIff(TRADING, OPEN, ONE, net);
  }

  lemma OneRefused(book: seq<Order>, post: Fate)
    requires !HasId(book, IdOf(ONE)) && post.reaches && (post.reply == Garbled || post.reply == HttpFailure(403))
    ensures var p := Send(OPEN.(book := book), ONE, OrderFor(ONE, Dec(1, 0)), Fails(post));
            FinalFailure(p)
            && (post.reply == Garbled ==> p.result.value.code == InternalError)
            && (post.reply == HttpFailure(403) ==> p.result.value.status == Rejected)
  {}

  /** The POST got there, and the body of the answer is unreadable: failed for good, and live. */
  lemma UnreadableAnswer()
    ensures var p := Place(TRADING, OPEN, ONE, Fails(Fate(true, Garbled, "")));
            FinalFailure(p) && p.result.value.code == InternalError && HasId(p.world.book, IdOf(ONE))
  {
    OneIsSent([], Fails(Fate(true, Garbled, "")));
    OneRefused([], Fate(true, Garbled, ""));
    FirstOrderLive(Fails(Fate(true, Garbled, "")));
  }

  lemma OneRaises(book: seq<Order>, status: string)
    requires !HasId(book, IdOf(ONE))
    ensures var p := Send(OPEN.(book := book), ONE, OrderFor(ONE, Dec(1, 0)), Fails(Fate(true, Unusable, status)));
            p.result == Err(Raised)
  {}

  /** The order is accepted, and its answer cannot be interpreted: an exception, and live. */
  lemma UnusableAnswer()
    ensures var p := Place(TRADING, OPEN, ONE, Fails(Fate(true, Unusable, "FILLED")));
            p.result == Err(Raised) && HasId(p.world.book, IdOf(ONE))
  {
    OneIsSent([], Fails(Fate(true, Unusable, "FILLED")));
    OneRaises([], "FILLED");
    FirstOrderLive(Fails(Fate(true, Unusable, "FILLED")));
  }

  /** The POST got there, and what comes back is a status below 429: rejected for good, and live. */
  lemma RefusedOnTheWayBack()
    ensures var p := Place(TRADING, OPEN, ONE, Fails(Fate(true, HttpFailure(403), "")));
            FinalFailure(p) && p.result.value.status == Rejected && HasId(p.world.book, IdOf(ONE))
  {
    OneIsSent([], Fails(Fate(true, HttpFailure(403), "")));
    OneRefused([], Fate(true, HttpFailure(403), ""));
    FirstOrderLive(Fails(Fate(true, HttpFailure(403), "")));
  }

  lemma OneLost(book: seq<Order>)
    ensures var p := Send(OPEN.(book := book), ONE, OrderFor(ONE, Dec(1, 0)), Fails(Fate(true, NetworkFailure, "")));
            p.world == OPEN.(book := p.world.book) && p.result.Ok? && p.result.value.retriable
  {}

  lemma OneDuplicate(book: seq<Order>)
    requires HasId(book, IdOf(ONE))
    ensures var p := Send(OPEN.(book := book), ONE, OrderFor(ONE, Dec(1, 0)), Fails(Fate(true, Answer, "NEW")));
            FinalFailure(p) && p.result.value.status == Rejected
  {}

  /** The answer is lost, the query fails, and the retry is refused as a duplicate: rejected for good, and live. */
  lemma RetryReportsRejected()
    ensures var once := Place(TRADING, OPEN, ONE, Fails(Fate(true, NetworkFailure, "")));
            var twice := Place(TRADING, once.world, ONE, Fails(Fate(true, Answer, "NEW")));
            once.result.Ok? && once.result.value.retriable
            && FinalFailure(twice) && twice.result.value.status == Rejected && HasId(twice.world.book, IdOf(ONE))
  {
    var lost, retry := Fails(Fate(true, NetworkFailure, "")), Fails(Fate(true, Answer, "NEW"));
    OneIsSent([], lost);
    FirstOrderLive(lost);
    var once := Place(TRADING, OPEN, ONE, lost);
    OneLost([]);
    OneDuplicate(once.world.book);
    OneIsSent(once.world.book, retry);
    OrderLiveIff(TRADING, once.world, ONE, retry);
  }
}
