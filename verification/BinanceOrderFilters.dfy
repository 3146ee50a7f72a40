/** trading/execution/binance_filters.py: the cached symbol filters and what they let through. */
module BinanceOrderFilters {
  import opened Prelude
  import opened Decimals

  datatype Filter = MinNotional(value: Dec) | LotSize(step: Dec) | PriceFilter(tick: Dec) | OtherFilter

  datatype SymbolFilters = SymbolFilters(minNotional: Dec, stepSize: Dec, tickSize: Dec)

  datatype SymbolInfo = SymbolInfo(symbol: string, trading: bool, filters: seq<Filter>)

  const DEFAULTS := SymbolFilters(Dec(0, 0), Dec(1, 0), Dec(1, -8))

  function Override(f: SymbolFilters, x: Filter): SymbolFilters {
    match x
    case MinNotional(v) => f.(minNotional := v)
    case LotSize(s) => f.(stepSize := s)
    case PriceFilter(t) => f.(tickSize := t)
    case OtherFilter => f
  }

  /** The last filter of each kind wins; a missing kind keeps its default. */
  function Parsed(filters: seq<Filter>): SymbolFilters {
    if |filters| == 0 then DEFAULTS else Override(Parsed(filters[..|filters| - 1]), filters[|filters| - 1])
  }

  predicate Wanted(info: SymbolInfo, symbols: Option<seq<string>>) {
    info.trading && (symbols == None || info.symbol in symbols.value)
  }

  function Cached(cache: map<string, SymbolFilters>, infos: seq<SymbolInfo>, symbols: Option<seq<string>>)
    : map<string, SymbolFilters>
  {
    if |infos| == 0 then cache
    else
      var before, info := Cached(cache, infos[..|infos| - 1], symbols), infos[|infos| - 1];
      if Wanted(info, symbols) then before[info.symbol := Parsed(info.filters)] else before
  }

  ghost predicate IsKind(x: Filter, like: Filter) {
    (x.MinNotional? && like.MinNotional?) || (x.LotSize? && like.LotSize?) || (x.PriceFilter? && like.PriceFilter?)
  }

  /** The entry `won` is the last one of its kind; with none of the kind, it is the default entry. */
  ghost predicate Wins(filters: seq<Filter>, won: Filter, default: Filter) {
    || (won == default && forall i :: 0 <= i < |filters| ==> !IsKind(filters[i], default))
    || (exists i :: 0 <= i < |filters| && filters[i] == won && IsKind(won, default)
                    && forall j :: i < j < |filters| ==> !IsKind(filters[j], default))
  }

  ghost predicate LastOfKindWins(filters: seq<Filter>, f: SymbolFilters) {
    && Wins(filters, MinNotional(f.minNotional), MinNotional(Dec(0, 0)))
    && Wins(filters, LotSize(f.stepSize), LotSize(Dec(1, 0)))
    && Wins(filters, PriceFilter(f.tickSize), PriceFilter(Dec(1, -8)))
  }

  lemma WinsNext(front: seq<Filter>, x: Filter, won: Filter, default: Filter)
    requires Wins(front, won, default)
    ensures !IsKind(x, default) ==> Wins(front + [x], won, default)
    ensures IsKind(x, default) ==> Wins(front + [x], x, default)
  {
    var all := front + [x];
    assert all[|front|] == x && forall i :: 0 <= i < |front| ==> all[i] == front[i];
    if !IsKind(x, default) && !(won == default && forall i :: 0 <= i < |front| ==> !IsKind(front[i], default)) {
      var i :| 0 <= i < |front| && front[i] == won && IsKind(won, default)
               && forall j :: i < j < |front| ==> !IsKind(front[j], default);
      assert all[i] == won;
    }
  }

  lemma {:induction false} ParsedLast(filters: seq<Filter>)
    ensures LastOfKindWins(filters, Parsed(filters))
  {
    if |filters| != 0 {
      var front, x := filters[..|filters| - 1], filters[|filters| - 1];
      var f := Parsed(front);
      ParsedLast(front);
      WinsNext(front, x, MinNotional(f.minNotional), MinNotional(Dec(0, 0)));
      WinsNext(front, x, LotSize(f.stepSize), LotSize(Dec(1, 0)));
      WinsNext(front, x, PriceFilter(f.tickSize), PriceFilter(Dec(1, -8)));
      assert filters == front + [x];
    }
  }

  ghost predicate Lists(info: SymbolInfo, symbols: Option<seq<string>>, s: string) {
    info.symbol == s && info.trading && (symbols.Some? ==> s in symbols.value)
  }

  ghost predicate SameAt(a: map<string, SymbolFilters>, b: map<string, SymbolFilters>, s: string) {
    (s in a <==> s in b) && (s in a ==> a[s] == b[s])
  }

  /** A symbol that no wanted entry lists keeps what it had; otherwise its last wanted entry decides. */
  ghost predicate LastEntryDecides(before: map<string, SymbolFilters>, after: map<string, SymbolFilters>,
                                   infos: seq<SymbolInfo>, symbols: Option<seq<string>>, s: string)
  {
    || (SameAt(before, after, s) && forall i :: 0 <= i < |infos| ==> !Lists(infos[i], symbols, s))
    || (exists i :: 0 <= i < |infos| && Lists(infos[i], symbols, s)
                    && (forall j :: i < j < |infos| ==> !Lists(infos[j], symbols, s))
                    && s in after && LastOfKindWins(infos[i].filters, after[s]))
  }

  lemma EntryListed(before: map<string, SymbolFilters>, after: map<string, SymbolFilters>, front: seq<SymbolInfo>,
                    last: SymbolInfo, symbols: Option<seq<string>>, s: string)
    requires Lists(last, symbols, s) && s in after && LastOfKindWins(last.filters, after[s])
    ensures LastEntryDecides(before, after, front + [last], symbols, s)
  {
    assert (front + [last])[|front|] == last;
  }

  lemma EntrySkipped(before: map<string, SymbolFilters>, mid: map<string, SymbolFilters>,
                     after: map<string, SymbolFilters>, front: seq<SymbolInfo>, last: SymbolInfo,
                     symbols: Option<seq<string>>, s: string)
    requires !Lists(last, symbols, s) && SameAt(mid, after, s) && LastEntryDecides(before, mid, front, symbols, s)
    ensures LastEntryDecides(before, after, front + [last], symbols, s)
  {
    var all := front + [last];
    assert all[|front|] == last && forall i :: 0 <= i < |front| ==> all[i] == front[i];
    if exists i :: 0 <= i < |front| && Lists(front[i], symbols, s) {
      var i :| 0 <= i < |front| && Lists(front[i], symbols, s)
               && (forall j :: i < j < |front| ==> !Lists(front[j], symbols, s))
               && s in mid && LastOfKindWins(front[i].filters, mid[s]);
      assert Lists(all[i], symbols, s);
    }
  }

  lemma {:induction false} CachedLast(cache: map<string, SymbolFilters>, infos: seq<SymbolInfo>,
                                      symbols: Option<seq<string>>, s: string)
    ensures LastEntryDecides(cache, Cached(cache, infos, symbols), infos, symbols, s)
  {
    if |infos| != 0 {
      var front, last := infos[..|infos| - 1], infos[|infos| - 1];
      var mid, after := Cached(cache, front, symbols), Cached(cache, infos, symbols);
      assert infos == front + [last];
      if Lists(last, symbols, s) {
        ParsedLast(last.filters);
        EntryListed(cache, after, front, last, symbols, s);
      } else {
        CachedLast(cache, front, symbols, s);
        EntrySkipped(cache, mid, after, front, last, symbols, s);
      }
    }
  }

  method FromBinance(filters: seq<Filter>) returns (parsed: SymbolFilters)
    ensures parsed == Parsed(filters) && LastOfKindWins(filters, parsed)
  {
    var minNotional, stepSize, tickSize := Dec(0, 0), Dec(1, 0), Dec(1, -8);
    for i := 0 to |filters|
      invariant SymbolFilters(minNotional, stepSize, tickSize) == Parsed(filters[..i])
    {
      assert filters[..i + 1][..i] == filters[..i];
      match filters[i]
      case MinNotional(v) => minNotional := v;
      case LotSize(s) => stepSize := s;
      case PriceFilter(t) => tickSize := t;
      case OtherFilter =>
    }
    assert filters[..|filters|] == filters;
    parsed := SymbolFilters(minNotional, stepSize, tickSize);
    ParsedLast(filters);
  }

  function FormatQuantity(cache: map<string, SymbolFilters>, symbol: string, qty: Dec): Option<Dec> {
    if symbol !in cache then None
    else
      var q := Quantize(qty, cache[symbol].stepSize);
      if Positive(q) then Some(q) else None
  }

  function FormatPrice(cache: map<string, SymbolFilters>, symbol: string, price: Dec): Option<Dec> {
    if symbol !in cache then None else Some(Quantize(price, cache[symbol].tickSize))
  }

  predicate ValidateMinNotional(cache: map<string, SymbolFilters>, symbol: string, qty: Dec, price: Dec) {
    symbol in cache
    && var f := cache[symbol];
       AtMost(f.minNotional, Times(Quantize(qty, f.stepSize), Quantize(price, f.tickSize)))
  }

  datatype Formatted = Formatted(qty: Dec, price: Dec)

  function ApplyFilters(cache: map<string, SymbolFilters>, symbol: string, qty: Dec, price: Dec): Option<Formatted> {
    var q, p := FormatQuantity(cache, symbol, qty), FormatPrice(cache, symbol, price);
    if q == None || p == None then None
    else if !ValidateMinNotional(cache, symbol, q.value, p.value) then None
    else Some(Formatted(q.value, p.value))
  }

  class BinanceFilters {
    var cache: map<string, SymbolFilters>

    constructor ()
      ensures cache == map[]
    {
      cache := map[];
    }

    method Store(infos: seq<SymbolInfo>, symbols: Option<seq<string>>)
      modifies this
      ensures cache == Cached(old(cache), infos, symbols)
      ensures forall s :: LastEntryDecides(old(cache), cache, infos, symbols, s)
    {
      for i := 0 to |infos|
        invariant cache == Cached(old(cache), infos[..i], symbols)
      {
        assert infos[..i + 1][..i] == infos[..i];
        if symbols != None && infos[i].symbol !in symbols.value { continue; }
        if !infos[i].trading { continue; }
        var parsed := FromBinance(infos[i].filters);
        cache := cache[infos[i].symbol := parsed];
      }
      assert infos[..|infos|] == infos;
      forall s ensures LastEntryDecides(old(cache), cache, infos, symbols, s) {
        CachedLast(old(cache), infos, symbols, s);
      }
    }
  }

  // ----- what gets through -----

  /** An order passes if and only if its symbol is cached, a positive quantity is left after rounding down to the
      step, and the rounded quantity at the rounded price reaches the minimum notional. */
  lemma PassesIff(cache: map<string, SymbolFilters>, symbol: string, qty: Dec, price: Dec)
    ensures ApplyFilters(cache, symbol, qty, price) != None
            <==> symbol in cache
                 && var f := cache[symbol];
                    Positive(Quantize(qty, f.stepSize))
                    && AtMost(f.minNotional, Times(Quantize(qty, f.stepSize), Quantize(price, f.tickSize)))
  {
    if symbol in cache {
      QuantizeAgain(qty, cache[symbol].stepSize);
      QuantizeAgain(price, cache[symbol].tickSize);
    }
  }

  lemma PositiveStays(d: Dec, step: Dec)
    requires Positive(Quantize(d, step))
    ensures Positive(d)
  {
    if d.coef <= 0 {
      if d.exp >= step.exp {
        KeepOrder(d.coef, 0, Pow10(d.exp - step.exp));
      } else {
        NegatedQuotient(-d.coef, Pow10(step.exp - d.exp));
      }
    }
  }

  lemma NegatedQuotient(a: int, b: nat)
    requires a >= 0 && b > 0
    ensures a / b >= 0
  {
    TruncateBounds(a, b);
  }

  /** No number of as many places as d is between d and x. */
  predicate NextBelow(d: Dec, x: Dec) { AtMost(d, x) && !AtMost(Dec(d.coef + 1, d.exp), x) }

  /** What passes is positive, the request cut off at the places of the step and the tick, and worth the minimum
      notional, at the requested price too unless that is negative; and filtering it again changes nothing. */
  lemma PassedOrder(cache: map<string, SymbolFilters>, symbol: string, qty: Dec, price: Dec)
    requires ApplyFilters(cache, symbol, qty, price) != None
    ensures var o := ApplyFilters(cache, symbol, qty, price).value;
            symbol in cache && o.qty.coef > 0 && NextBelow(o.qty, qty)
            && o.qty.exp == cache[symbol].stepSize.exp && o.price.exp == cache[symbol].tickSize.exp
            && AtMost(cache[symbol].minNotional, Times(o.qty, o.price))
            && ApplyFilters(cache, symbol, o.qty, o.price) == Some(o)
            && (price.coef >= 0 ==> NextBelow(o.price, price) && AtMost(cache[symbol].minNotional, Times(o.qty, price)))
  {
    var f, o := cache[symbol], ApplyFilters(cache, symbol, qty, price).value;
    PassesIff(cache, symbol, qty, price);
    PositiveStays(qty, f.stepSize);
    QuantizeDown(qty, f.stepSize);
    QuantizeAgain(qty, f.stepSize);
    QuantizeAgain(price, f.tickSize);
    if price.coef >= 0 {
      QuantizeDown(price, f.tickSize);
      TimesKeepsOrder(o.qty, o.price, price);
      AtMostTransitive(f.minNotional, Times(o.qty, o.price), Times(o.qty, price));
    }
  }
}
