/**
 * `BasicBot.is_valid_symbol`: a symbol is valid iff it is the "symbol"
 * field of one of the instruments the exchange lists; any failure of the
 * lookup counts as "not valid".
 */
module Symbols {
  import opened Wrappers

  /** One entry of the exchange's instrument list, field name to value. */
  type Instrument = map<string, string>

  /** The exchange-information response; `symbols` is None when it has no "symbols" entry. */
  datatype ExchangeInfo = ExchangeInfo(symbols: Option<seq<Instrument>>)

  /** Every instrument has a "symbol" field and one of them is `symbol`. */
  ghost predicate Lists(instruments: seq<Instrument>, symbol: string) {
    && (forall i :: 0 <= i < |instruments| ==> "symbol" in instruments[i])
    && (exists i :: 0 <= i < |instruments| && "symbol" in instruments[i] && instruments[i]["symbol"] == symbol)
  }

  /**
   * The list comprehension collecting each instrument's "symbol" field, in
   * order; None when an instrument lacks the field (the comprehension raises).
   */
  function SymbolsOf(instruments: seq<Instrument>): (r: Option<seq<string>>)
    ensures r.Some? <==> forall i :: 0 <= i < |instruments| ==> "symbol" in instruments[i]
    ensures r.Some? ==> |r.value| == |instruments|
    ensures r.Some? ==> forall i :: 0 <= i < |instruments| ==> r.value[i] == instruments[i]["symbol"]
  {
    if instruments == [] then Some([])
    else if "symbol" !in instruments[0] then None
    else
      match SymbolsOf(instruments[1..])
      case None => None
      case Some(rest) => Some([instruments[0]["symbol"]] + rest)
  }

  /**
   * The membership rule. `fetch` is the outcome of the exchange-information
   * call: None when it raised.
   */
  function IsValidSymbol(symbol: string, fetch: Option<ExchangeInfo>): (valid: bool)
    ensures valid <==> fetch.Some? && fetch.value.symbols.Some? && Lists(fetch.value.symbols.value, symbol)
  {
    if fetch.None? || fetch.value.symbols.None? then false
    else
      var instruments := fetch.value.symbols.value;
      match SymbolsOf(instruments)
      case None => false
      case Some(names) =>
        assert (symbol in names) <==> Lists(instruments, symbol) by {
          if symbol in names {
            var i :| 0 <= i < |names| && names[i] == symbol;
            assert instruments[i]["symbol"] == symbol;
          }
          if Lists(instruments, symbol) {
            var i :| 0 <= i < |instruments| && "symbol" in instruments[i] && instruments[i]["symbol"] == symbol;
            assert names[i] == symbol;
          }
        }
        symbol in names
  }
}
