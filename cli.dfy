/**
 * One round of the interactive trading loop: the symbol, side, quantity
 * and order-type checks, the prices each order type asks for, and the
 * mapping of the user's order-type choice to the exchange's type. A round
 * ends either in a rejection (the loop re-prompts) or in one call of
 * `place_order`.
 */
module Cli {
  import opened Wrappers
  import opened Orders
  import Symbols

  /**
   * The user's answers in one round, already upper-cased and stripped.
   * Numbers are the outcome of `float` on the typed text: None when it
   * raised ValueError. `price` and `stopPrice` are only asked for by the
   * order types that need them (for STOP_LIMIT the stop price is asked first).
   */
  datatype Answers = Answers(symbol: string, side: string, typeChoice: string,
                             quantity: Option<Num>, price: Option<Num>, stopPrice: Option<Num>)

  /** Why a round is abandoned before anything is submitted. */
  datatype Rejection = InvalidSymbol | InvalidSide | InvalidQuantity | InvalidPrice
                     | InvalidStopOrLimitPrice | InvalidOrderType

  datatype Outcome = Rejected(reason: Rejection) | Submitted(request: OrderRequest)

  /** The choices the prompt offers. */
  const Choices: seq<string> := ["MARKET", "LIMIT", "STOP_LIMIT"]

  /**
   * The checks of one round, in the source's order: symbol, side,
   * quantity, then the order-type branch with its prices. `fetch` is the
   * exchange-information lookup behind the symbol check.
   */
  function Round(a: Answers, fetch: Option<Symbols.ExchangeInfo>): (o: Outcome)
    ensures o.Submitted? ==> Symbols.IsValidSymbol(a.symbol, fetch)
    ensures o.Submitted? ==> a.side in ["BUY", "SELL"] && a.typeChoice in Choices
    ensures o.Submitted? ==> o.request.symbol == a.symbol && o.request.side == a.side
                             && a.quantity == Some(o.request.quantity)
    ensures o.Submitted? ==> o.request.orderType in {Market, Limit, Stop}
    ensures o.Submitted? ==> Buildable(o.request)
  {
    if !Symbols.IsValidSymbol(a.symbol, fetch) then Rejected(InvalidSymbol)
    else if a.side !in ["BUY", "SELL"] then Rejected(InvalidSide)
    else if a.quantity.None? then Rejected(InvalidQuantity)
    else if a.typeChoice == "LIMIT" then
      if a.price.None? then Rejected(InvalidPrice)
      else Submitted(OrderRequest(a.symbol, a.side, Limit, a.quantity.value, a.price, None))
    else if a.typeChoice == "STOP_LIMIT" then
      if a.stopPrice.None? || a.price.None? then Rejected(InvalidStopOrLimitPrice)
      // the exchange has no separate stop-limit type: it is sent as STOP
      else Submitted(OrderRequest(a.symbol, a.side, Stop, a.quantity.value, a.price, a.stopPrice))
    else if a.typeChoice == "MARKET" then
      Submitted(OrderRequest(a.symbol, a.side, Market, a.quantity.value, None, None))
    else Rejected(InvalidOrderType)
  }

  /** The answers pass every check that comes before the order-type branch. */
  predicate PassesCommonChecks(a: Answers, fetch: Option<Symbols.ExchangeInfo>) {
    Symbols.IsValidSymbol(a.symbol, fetch) && a.side in ["BUY", "SELL"] && a.quantity.Some?
  }

  /** Each rejection happens exactly when its check is the first to fail. */
  lemma RoundRejections(a: Answers, fetch: Option<Symbols.ExchangeInfo>)
    ensures Round(a, fetch) == Rejected(InvalidSymbol) <==> !Symbols.IsValidSymbol(a.symbol, fetch)
    ensures Round(a, fetch) == Rejected(InvalidSide) <==>
              Symbols.IsValidSymbol(a.symbol, fetch) && a.side != "BUY" && a.side != "SELL"
    ensures Round(a, fetch) == Rejected(InvalidQuantity) <==>
              Symbols.IsValidSymbol(a.symbol, fetch) && a.side in ["BUY", "SELL"] && a.quantity.None?
    ensures Round(a, fetch) == Rejected(InvalidPrice) <==>
              PassesCommonChecks(a, fetch) && a.typeChoice == "LIMIT" && a.price.None?
    ensures Round(a, fetch) == Rejected(InvalidStopOrLimitPrice) <==>
              PassesCommonChecks(a, fetch) && a.typeChoice == "STOP_LIMIT"
              && (a.stopPrice.None? || a.price.None?)
    ensures Round(a, fetch) == Rejected(InvalidOrderType) <==>
              PassesCommonChecks(a, fetch) && a.typeChoice !in Choices
  {
  }

  /**
   * The mapping of the user's choice: MARKET to MARKET with no prices,
   * LIMIT to LIMIT with the price, STOP_LIMIT to the exchange's STOP with
   * both prices.
   */
  lemma RoundChoices(a: Answers, fetch: Option<Symbols.ExchangeInfo>)
    requires PassesCommonChecks(a, fetch)
    ensures a.typeChoice == "MARKET" ==>
              Round(a, fetch) == Submitted(OrderRequest(a.symbol, a.side, Market, a.quantity.value, None, None))
    ensures a.typeChoice == "LIMIT" && a.price.Some? ==>
              Round(a, fetch) == Submitted(OrderRequest(a.symbol, a.side, Limit, a.quantity.value, a.price, None))
    ensures a.typeChoice == "STOP_LIMIT" && a.stopPrice.Some? && a.price.Some? ==>
              Round(a, fetch) == Submitted(OrderRequest(a.symbol, a.side, Stop, a.quantity.value, a.price, a.stopPrice))
  {
  }

  /** No type named STOP_MARKET, the locally defined one, is ever submitted by the interactive flow. */
  lemma StopMarketUnreachable(a: Answers, fetch: Option<Symbols.ExchangeInfo>)
    ensures Round(a, fetch).Submitted? ==> Round(a, fetch).request.orderType.Name() != StopMarket.Name()
  {
  }

  /**
   * Whatever the interactive flow submits, the builder does not raise, and
   * the parameters carry exactly the keys the chosen order type needs, with
   * the side translated to the exchange's side.
   */
  lemma SubmittedParams(a: Answers, fetch: Option<Symbols.ExchangeInfo>)
    requires Round(a, fetch).Submitted?
    ensures Spec(Round(a, fetch).request).Some?
    ensures a.typeChoice == "MARKET" ==> Spec(Round(a, fetch).request).value.Keys == BaseKeys
    ensures a.typeChoice == "LIMIT" ==>
              Spec(Round(a, fetch).request).value.Keys == BaseKeys + {TimeInForceKey, PriceKey}
    ensures a.typeChoice == "STOP_LIMIT" ==>
              && Spec(Round(a, fetch).request).value.Keys == BaseKeys + {StopPriceKey, PriceKey, TimeInForceKey}
              && Spec(Round(a, fetch).request).value[TypeKey] == Text("STOP")
    ensures Spec(Round(a, fetch).request).value[SideKey] == SideValue(if a.side == "BUY" then Buy else Sell)
  {
  }

  /** A market buy of 0.01 BTCUSDT is sent with the four base keys and nothing else. */
  lemma MarketBuyExample(fetch: Option<Symbols.ExchangeInfo>)
    requires Symbols.IsValidSymbol("BTCUSDT", fetch)
    ensures Round(Answers("BTCUSDT", "BUY", "MARKET", Some(0.01), None, None), fetch)
            == Submitted(OrderRequest("BTCUSDT", "BUY", Market, 0.01, None, None))
    ensures Spec(OrderRequest("BTCUSDT", "BUY", Market, 0.01, None, None))
            == Some(map[SymbolKey := Text("BTCUSDT"), SideKey := SideValue(Buy),
                        TypeKey := Text("MARKET"), QuantityKey := Number(0.01)])
  {
    var req := OrderRequest("BTCUSDT", "BUY", Market, 0.01, None, None);
    var expected := map[SymbolKey := Text("BTCUSDT"), SideKey := SideValue(Buy),
                        TypeKey := Text("MARKET"), QuantityKey := Number(0.01)];
    MarketParams(req);
    CopiedFields(req);
    assert Spec(req).value.Keys == expected.Keys;
    assert Spec(req).value == expected;
  }

  /** A stop-limit order with stop 29000 and limit 28900 goes out as STOP with both prices and GTC. */
  lemma StopLimitExample(fetch: Option<Symbols.ExchangeInfo>)
    requires Symbols.IsValidSymbol("BTCUSDT", fetch)
    ensures Round(Answers("BTCUSDT", "SELL", "STOP_LIMIT", Some(0.01), Some(28900.0), Some(29000.0)), fetch)
            == Submitted(OrderRequest("BTCUSDT", "SELL", Stop, 0.01, Some(28900.0), Some(29000.0)))
    ensures Spec(OrderRequest("BTCUSDT", "SELL", Stop, 0.01, Some(28900.0), Some(29000.0)))
            == Some(map[SymbolKey := Text("BTCUSDT"), SideKey := SideValue(Sell),
                        TypeKey := Text("STOP"), QuantityKey := Number(0.01),
                        StopPriceKey := Number(29000.0), PriceKey := Number(28900.0),
                        TimeInForceKey := GoodTillCancel])
  {
    var req := OrderRequest("BTCUSDT", "SELL", Stop, 0.01, Some(28900.0), Some(29000.0));
    var expected := map[SymbolKey := Text("BTCUSDT"), SideKey := SideValue(Sell),
                        TypeKey := Text("STOP"), QuantityKey := Number(0.01),
                        StopPriceKey := Number(29000.0), PriceKey := Number(28900.0),
                        TimeInForceKey := GoodTillCancel];
    StopParams(req);
    CopiedFields(req);
    assert Spec(req).value.Keys == expected.Keys;
    assert Spec(req).value == expected;
  }
}
