/**
 * The order-parameter builder and submitter of `BasicBot.place_order`:
 * an order request becomes the key/value set handed to the exchange's
 * order-creation call, the set depending on the order type.
 */
module Orders {
  import opened Wrappers

  /** A number the bot has already parsed with `float`; the model only copies it. */
  type Num = real

  /** The exchange's order sides, SIDE_BUY and SIDE_SELL. */
  datatype Side = Buy | Sell

  /**
   * Order types: the exchange's MARKET, LIMIT and STOP, the locally defined
   * STOP_MARKET, and any other name a caller may pass through.
   */
  datatype OrderType = Market | Limit | Stop | StopMarket | Other(name: string)
  {
    /** The string the exchange sees; the builder compares these, as the source compares strings. */
    function Name(): string {
      match this
      case Market => "MARKET"
      case Limit => "LIMIT"
      case Stop => "STOP"
      case StopMarket => "STOP_MARKET"
      case Other(n) => n
    }
  }

  /** The keyword arguments of the exchange's order-creation call. */
  datatype Key = SymbolKey | SideKey | TypeKey | QuantityKey | TimeInForceKey | PriceKey | StopPriceKey
  {
    function Name(): string {
      match this
      case SymbolKey => "symbol"
      case SideKey => "side"
      case TypeKey => "type"
      case QuantityKey => "quantity"
      case TimeInForceKey => "timeInForce"
      case PriceKey => "price"
      case StopPriceKey => "stopPrice"
    }
  }

  /**
   * The values stored under those keys; the order type is sent as its name
   * (Text), and GoodTillCancel is TIME_IN_FORCE_GTC.
   */
  datatype Value = Text(text: string) | SideValue(side: Side) | Number(number: Num) | GoodTillCancel

  type Params = map<Key, Value>

  /** The arguments of `place_order`; a missing price or stop price is the default None. */
  datatype OrderRequest = OrderRequest(symbol: string, side: string, orderType: OrderType,
                                       quantity: Num, price: Option<Num>, stopPrice: Option<Num>)

  /** The side sent: SIDE_BUY for exactly the text "BUY", SIDE_SELL for every other text. */
  function SideOf(side: string): Side {
    if side == "BUY" then Buy else Sell
  }

  const BaseKeys: set<Key> := {SymbolKey, SideKey, TypeKey, QuantityKey}

  /** The table of keys each order type is sent with. */
  function KeysFor(t: OrderType): set<Key> {
    if t.Name() == Limit.Name() then BaseKeys + {TimeInForceKey, PriceKey}
    else if t.Name() == Stop.Name() then BaseKeys + {StopPriceKey, PriceKey, TimeInForceKey}
    else if t.Name() == StopMarket.Name() then BaseKeys + {StopPriceKey}
    else BaseKeys
  }

  /** What the request supplies for a key; None where the request leaves the price or stop price out. */
  function ValueOf(req: OrderRequest, k: Key): Option<Value> {
    match k
    case SymbolKey => Some(Text(req.symbol))
    case SideKey => Some(SideValue(SideOf(req.side)))
    case TypeKey => Some(Text(req.orderType.Name()))
    case QuantityKey => Some(Number(req.quantity))
    case TimeInForceKey => Some(GoodTillCancel)
    case PriceKey => if req.price.Some? then Some(Number(req.price.value)) else None
    case StopPriceKey => if req.stopPrice.Some? then Some(Number(req.stopPrice.value)) else None
  }

  /** The request supplies a value for every key its type needs (otherwise `float(None)` raises). */
  predicate Buildable(req: OrderRequest) {
    forall k :: k in KeysFor(req.orderType) ==> ValueOf(req, k).Some?
  }

  /** The reference parameter set: every key of the type with the request's value, or None when one is missing. */
  function Spec(req: OrderRequest): Option<Params> {
    if Buildable(req) then Some(map k | k in KeysFor(req.orderType) :: ValueOf(req, k).value) else None
  }

  /**
   * The body of `place_order` up to the exchange call: start from the four
   * base keys and add keys in place by order type. A None price or stop
   * price makes `float` raise, which abandons the parameters.
   */
  method BuildParams(req: OrderRequest) returns (p: Option<Params>)
    ensures p == Spec(req)
  {
    var params: Params := map[SymbolKey := Text(req.symbol),
                              SideKey := SideValue(SideOf(req.side)),
                              TypeKey := Text(req.orderType.Name()),
                              QuantityKey := Number(req.quantity)];
    var name := req.orderType.Name();
    if name == Limit.Name() {
      params := params[TimeInForceKey := GoodTillCancel];
      if req.price.None? {
        assert !Buildable(req) by { assert ValueOf(req, PriceKey).None?; }
        return None;
      }
      params := params[PriceKey := Number(req.price.value)];
    } else if name == Stop.Name() || name == StopMarket.Name() {
      if req.stopPrice.None? {
        assert !Buildable(req) by { assert ValueOf(req, StopPriceKey).None?; }
        return None;
      }
      params := params[StopPriceKey := Number(req.stopPrice.value)];
      if name == Stop.Name() {
        if req.price.None? {
          assert !Buildable(req) by { assert ValueOf(req, PriceKey).None?; }
          return None;
        }
        params := params[PriceKey := Number(req.price.value)];
        params := params[TimeInForceKey := GoodTillCancel];
      }
    }
    assert Buildable(req);
    assert params == Spec(req).value;
    return Some(params);
  }

  /** An exchange response, field name to value. */
  type Order = map<string, string>

  /** What the exchange's order-creation call does: it returns a response or raises. */
  datatype Reply = Accepted(order: Order) | Raised

  /**
   * `place_order`: build the parameters and, only if that succeeds, call
   * the exchange once with them, returning its response. `sent` records
   * that call: the parameters passed, or None when no call was made. Every
   * exception, including the one raised when the response has no "orderId"
   * to print, is caught and yields no order.
   */
  method PlaceOrder(req: OrderRequest, submit: Params -> Reply) returns (sent: Option<Params>, placed: Option<Order>)
    ensures sent == Spec(req)
    ensures placed.Some? <==> sent.Some? && submit(sent.value).Accepted? && "orderId" in submit(sent.value).order
    ensures placed.Some? ==> placed.value == submit(sent.value).order
  {
    sent := BuildParams(req);
    if sent.None? {
      return sent, None;
    }
    var reply := submit(sent.value);
    if reply.Raised? {
      return sent, None;
    }
    if "orderId" !in reply.order {
      return sent, None;
    }
    return sent, Some(reply.order);
  }

  /** Symbol, type name and quantity are copied unchanged; side is SIDE_BUY iff the text is "BUY". */
  lemma CopiedFields(req: OrderRequest)
    requires Spec(req).Some?
    ensures BaseKeys <= Spec(req).value.Keys
    ensures Spec(req).value[SymbolKey] == Text(req.symbol)
    ensures Spec(req).value[TypeKey] == Text(req.orderType.Name())
    ensures Spec(req).value[QuantityKey] == Number(req.quantity)
    ensures Spec(req).value[SideKey] == SideValue(Buy) <==> req.side == "BUY"
    ensures Spec(req).value[SideKey] == SideValue(Sell) <==> req.side != "BUY"
  {
  }

  /** MARKET: always built, with exactly the four base keys. */
  lemma MarketParams(req: OrderRequest)
    requires req.orderType == Market
    ensures Spec(req).Some?
    ensures Spec(req).value.Keys == {SymbolKey, SideKey, TypeKey, QuantityKey}
    ensures PriceKey !in Spec(req).value && StopPriceKey !in Spec(req).value
    ensures TimeInForceKey !in Spec(req).value
  {
  }

  /** LIMIT: built iff a price is given, adding GTC and the price, never a stop price. */
  lemma LimitParams(req: OrderRequest)
    requires req.orderType == Limit
    ensures Spec(req).Some? <==> req.price.Some?
    ensures Spec(req).Some? ==>
              && Spec(req).value.Keys == BaseKeys + {TimeInForceKey, PriceKey}
              && Spec(req).value[TimeInForceKey] == GoodTillCancel
              && Spec(req).value[PriceKey] == Number(req.price.value)
              && StopPriceKey !in Spec(req).value
  {
  }

  /** STOP: built iff both prices are given, adding the stop price, the price and GTC. */
  lemma StopParams(req: OrderRequest)
    requires req.orderType == Stop
    ensures Spec(req).Some? <==> req.price.Some? && req.stopPrice.Some?
    ensures Spec(req).Some? ==>
              && Spec(req).value.Keys == BaseKeys + {StopPriceKey, PriceKey, TimeInForceKey}
              && Spec(req).value[StopPriceKey] == Number(req.stopPrice.value)
              && Spec(req).value[PriceKey] == Number(req.price.value)
              && Spec(req).value[TimeInForceKey] == GoodTillCancel
  {
  }

  /** STOP_MARKET: built iff a stop price is given, adding only the stop price. */
  lemma StopMarketParams(req: OrderRequest)
    requires req.orderType == StopMarket
    ensures Spec(req).Some? <==> req.stopPrice.Some?
    ensures Spec(req).Some? ==>
              && Spec(req).value.Keys == BaseKeys + {StopPriceKey}
              && Spec(req).value[StopPriceKey] == Number(req.stopPrice.value)
              && PriceKey !in Spec(req).value && TimeInForceKey !in Spec(req).value
  {
    if req.stopPrice.None? {
      assert ValueOf(req, StopPriceKey).None?;
    }
  }

  /** Any other type name falls through every branch: the four base keys only, whatever prices are given. */
  lemma OtherParams(req: OrderRequest)
    requires req.orderType.Name() !in {Limit.Name(), Stop.Name(), StopMarket.Name()}
    ensures Spec(req).Some?
    ensures Spec(req).value.Keys == BaseKeys
  {
  }

  /** The builder fails exactly when the type needs a price or stop price that is absent. */
  lemma BuildFailsIffPriceMissing(req: OrderRequest)
    ensures Spec(req).None? <==>
              || (PriceKey in KeysFor(req.orderType) && req.price.None?)
              || (StopPriceKey in KeysFor(req.orderType) && req.stopPrice.None?)
  {
  }

  /**
   * Only the type's name matters, as in the source, where the type is a
   * string: two requests that differ only in how a type of the same name
   * is written are sent the same parameters.
   */
  lemma SameNameSameParams(req: OrderRequest, t: OrderType)
    requires t.Name() == req.orderType.Name()
    ensures Spec(req.(orderType := t)) == Spec(req)
  {
    var other := req.(orderType := t);
    assert KeysFor(t) == KeysFor(req.orderType);
    forall k ensures ValueOf(other, k) == ValueOf(req, k) {
    }
    assert Buildable(other) == Buildable(req);
    if Buildable(req) {
      var m, m' := Spec(req).value, Spec(other).value;
      assert m'.Keys == m.Keys;
      forall k | k in m ensures m'[k] == m[k] {
      }
      assert m' == m;
    }
  }
}
