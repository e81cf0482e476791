# Binance futures trading bot: order building, symbol check and CLI dispatch

This project models the decision logic of a small command-line bot that
submits one order at a time to an exchange's futures testnet
(`trading_bot/trading_bot.py`):

- `Orders` models `BasicBot.place_order`. An `OrderRequest` becomes the
  key/value set handed to the exchange's order-creation call. `BuildParams`
  builds that map step by step, as the source does: first the four base keys,
  then additions by order type. It is proved equal to the reference `Spec`,
  which gives each type's key set (`KeysFor`) and takes each key's value from
  the request (`ValueOf`). A price or stop price that the type needs but that
  is absent makes `float(None)` raise. The handler catches that, so the
  builder yields `None` and the exchange is not called. Otherwise `PlaceOrder`
  calls the exchange once with exactly those parameters, which it reports as `sent`. The
  exchange call is a function parameter `submit`, which either returns a
  response or raises. Every exception, including a response with no
  `orderId` to print, ends in `None`.
- `Symbols` models `BasicBot.is_valid_symbol`. A symbol is valid iff it is the
  `symbol` field of one of the listed instruments. It is not valid if the
  lookup fails for any reason: the call raises, the response has no `symbols`
  entry, or an instrument has no `symbol` field.
- `Cli` models one round of the interactive loop as the pure function
  `Round`. It works on answers that have already been normalised and parsed.
  Its result is either a rejection or the request passed to `place_order`.

Order types are a datatype. The builder tells them apart by their exchange
names, just as the source compares strings, and sends the name as the `type`
value. The locally defined `STOP_MARKET` shares the STOP branch of the builder
and differs only by skipping its inner price and time-in-force step; the key
table `KeysFor` lists it on a line of its own. No CLI choice produces it
(`Cli.StopMarketUnreachable`).

Facts about the code that the model keeps:

- The code never checks that the quantity is positive (trading_bot/trading_bot.py:88-93).
- Quantity, limit price and stop/limit price are rejected separately (`InvalidQuantity`, `InvalidPrice`, `InvalidStopOrLimitPrice`), and the quantity is parsed before the order type is checked (88-123).
- A response without `orderId` makes `place_order` return None even though the exchange accepted the order (54, 60-62).

## Model

| member | source | states |
|---|---|---|
| `Orders.BuildParams` | trading_bot/trading_bot.py:34-49 | the incrementally built parameters equal the reference set: each key of the type's table with the request's value, or failure exactly when a needed price is missing |
| `Orders.PlaceOrder` | trading_bot/trading_bot.py:32-62 | the exchange is called only if the parameters build, and then once with exactly the reference parameters (`sent`); an order is returned iff that call returns a response with an `orderId`, and it is that response; otherwise no order and no exception |
| `Orders.CopiedFields` | trading_bot/trading_bot.py:34-39 | every built parameter set has the four base keys; symbol, type name and quantity are copied unchanged; side is SIDE_BUY iff the argument is "BUY", SIDE_SELL for any other text |
| `Orders.MarketParams` | trading_bot/trading_bot.py:34-50 | MARKET always builds, with exactly symbol, side, type and quantity, and no price, stopPrice or timeInForce |
| `Orders.LimitParams` | trading_bot/trading_bot.py:41-43 | LIMIT builds iff a price is given; then the keys are the base keys plus timeInForce = GTC and the price, never stopPrice |
| `Orders.StopParams` | trading_bot/trading_bot.py:45-49 | STOP builds iff both prices are given; then the keys are the base keys plus stopPrice, price and timeInForce = GTC, with the given values |
| `Orders.StopMarketParams` | trading_bot/trading_bot.py:45-47 | STOP_MARKET builds iff a stop price is given; then the keys are the base keys plus stopPrice only, with no price and no timeInForce |
| `Orders.OtherParams` | trading_bot/trading_bot.py:41-49 | any other type name gets the four base keys only, whatever prices are given |
| `Orders.BuildFailsIffPriceMissing` | trading_bot/trading_bot.py:43-48 | building fails exactly when the type's key set needs a price or a stop price that the request leaves out |
| `Orders.SameNameSameParams` | trading_bot/trading_bot.py:37-45 | two requests whose order types have the same exchange name are sent identical parameters, since the type is compared and sent as a string |
| `Symbols.SymbolsOf` | trading_bot/trading_bot.py:26 | the comprehension succeeds iff every instrument has a `symbol` field, and then yields those fields in order, one per instrument |
| `Symbols.IsValidSymbol` | trading_bot/trading_bot.py:23-30 | true iff the lookup succeeded, the response lists instruments, every instrument has a symbol, and one of them is the given symbol; false on every lookup failure |
| `Cli.Round` | trading_bot/trading_bot.py:76-123 | a submitted request always has a valid symbol, a side of BUY or SELL copied from the answer, a parsed quantity, a type among MARKET, LIMIT and STOP, and every price its type needs |
| `Cli.RoundRejections` | trading_bot/trading_bot.py:78-123 | each rejection (symbol, side, quantity, limit price, stop/limit price, order type) happens exactly when its check is the first to fail, so an unknown choice is rejected before `place_order` |
| `Cli.RoundChoices` | trading_bot/trading_bot.py:98-119 | once the common checks pass, "MARKET" submits MARKET with no prices, "LIMIT" submits LIMIT with the price, "STOP_LIMIT" submits the exchange's STOP with both prices |
| `Cli.StopMarketUnreachable` | trading_bot/trading_bot.py:98-123 | no round submits an order type named STOP_MARKET |
| `Cli.SubmittedParams` | trading_bot/trading_bot.py:98-132 | whatever a round submits, the builder does not raise, and the parameters have exactly the key set of the chosen type and the translated side |
| `Cli.MarketBuyExample` | trading_bot/trading_bot.py:118-132 | a market buy of 0.01 BTCUSDT is sent as exactly symbol, side BUY, type MARKET and quantity 0.01 |
| `Cli.StopLimitExample` | trading_bot/trading_bot.py:107-132 | a stop-limit sell with stop 29000 and limit 28900 is sent as STOP with stopPrice 29000, price 28900 and GTC |

## Left out

- The exchange client library is not part of this model. The exchange-information call is the input `fetch`, and the order-creation call is the function parameter `submit`.
- Constructor wiring and testnet/production URL selection (lines 17-21) are left out: they only configure the external transport.
- Logging configuration, `logging` calls and `print` output are side-effecting I/O. The one exception is the `order['orderId']` lookup inside the success `print`, which can raise; it is modelled in `PlaceOrder`.
- The `input()` prompts, `.upper().strip()` normalisation and the repeat/exit loop are interactive I/O and are left out. `Round` receives answers that are already normalised, and models a single pass through the loop body.
- Floating point is left out. Parsed numbers are opaque `Num` values that are only copied. A failed `float` on typed text is an `Answers` field equal to `None`.
- `PlaceOrder`: the price arguments are `Option<Num>`, so a value that `float` would reject, such as non-numeric text passed straight to `place_order`, is not modelled. Only the `None` default that makes `float` raise is.
- `PlaceOrder`: the exchange's rejection (`BinanceAPIException`) and other exceptions are one outcome, `Raised`. Both only log and return nothing.
- Instruments are field maps with text values. Only the `symbol` field is read.
- The values of the constants star-imported from the exchange library (line 3) are fixed by assumption: `ORDER_TYPE_MARKET`, `ORDER_TYPE_LIMIT` and `ORDER_TYPE_STOP` are "MARKET", "LIMIT" and "STOP" (distinct from the local "STOP_MARKET"), `SIDE_BUY`/`SIDE_SELL` are `Buy`/`Sell`, and `TIME_IN_FORCE_GTC` is `GoodTillCancel`. `KeysFor` and the dispatch in `BuildParams` depend on these values.
