/**
 * What the bot reads from and sends to the broker: instrument and position
 * records, the two lookups over them, and the market orders it builds.
 * A fetch that raises is `None`; the bot treats it like a miss.
 */
module Broker {
  import opened Wrappers

  /** A row of the NFO instrument list. */
  datatype Instrument = Instrument(tradingSymbol: string, lotSize: int)

  /** A row of the account's net positions; `quantity` is signed (negative is short). */
  datatype Position = Position(tradingSymbol: string, quantity: int)

  datatype Side = Buy | Sell

  /** A regular MARKET order for product NRML on exchange NFO. */
  datatype Order = Order(tradingSymbol: string, side: Side, quantity: int)

  /** The change an order makes to the signed position once filled. */
  function SignedQuantity(o: Order): int {
    if o.side == Buy then o.quantity else -o.quantity
  }

  /** The total change a sequence of filled orders makes to the signed position. */
  function NetEffect(orders: seq<Order>): int {
    if orders == [] then 0 else SignedQuantity(orders[0]) + NetEffect(orders[1..])
  }

  // ---------------------------------------------------------------------
  // Orders
  // ---------------------------------------------------------------------

  /**
   * `exit_position`: close a signed position of `qty` with one order for
   * its absolute size, selling a long and buying back a short.
   */
  function ExitOrder(futSymbol: string, qty: int): (o: Order)
    ensures o.tradingSymbol == futSymbol
    ensures o.quantity >= 0 && (o.quantity == qty || o.quantity == -qty)
    ensures o.side == Sell <==> qty > 0
    ensures qty + SignedQuantity(o) == 0
  {
    Order(futSymbol, if qty > 0 then Sell else Buy, if qty < 0 then -qty else qty)
  }

  /** The order `enter_position` places: buy for "LONG", sell for any other side, one lot. */
  function EntryOrder(futSymbol: string, side: string, lot: int): (o: Order)
    ensures o.tradingSymbol == futSymbol && o.quantity == lot
    ensures o.side == Buy <==> side == "LONG"
  {
    Order(futSymbol, if side == "LONG" then Buy else Sell, lot)
  }

  // ---------------------------------------------------------------------
  // Lookups
  // ---------------------------------------------------------------------

  /** The index of the first entry equal to `symbol`, if any. */
  function FirstIndex(symbols: seq<string>, symbol: string): (r: Option<nat>)
    ensures r.Some? ==> r.value < |symbols| && symbols[r.value] == symbol
    ensures r.Some? ==> forall j :: 0 <= j < r.value ==> symbols[j] != symbol
    ensures r.None? ==> forall j :: 0 <= j < |symbols| ==> symbols[j] != symbol
  {
    if symbols == [] then None
    else if symbols[0] == symbol then Some(0)
    else match FirstIndex(symbols[1..], symbol)
      case None => None
      case Some(k) => Some(k + 1)
  }

  /** The trading symbols of the position rows, in order. */
  function PositionSymbols(ps: seq<Position>): (r: seq<string>)
    ensures |r| == |ps| && forall i :: 0 <= i < |ps| ==> r[i] == ps[i].tradingSymbol
  {
    seq(|ps|, i requires 0 <= i < |ps| => ps[i].tradingSymbol)
  }

  /** The trading symbols of the instrument rows, in order. */
  function InstrumentSymbols(items: seq<Instrument>): (r: seq<string>)
    ensures |r| == |items| && forall i :: 0 <= i < |items| ==> r[i] == items[i].tradingSymbol
  {
    seq(|items|, i requires 0 <= i < |items| => items[i].tradingSymbol)
  }

  /** The net quantity the bot sees for `symbol`: the first matching row's, else 0 (also when the fetch failed). */
  function NetQuantity(positions: Option<seq<Position>>, symbol: string): int {
    match positions
    case None => 0
    case Some(ps) =>
      match FirstIndex(PositionSymbols(ps), symbol)
      case None => 0
      case Some(i) => ps[i].quantity
  }

  /** `get_position_quantity`: scan the net positions for the first row of `symbol`. */
  method PositionQuantity(positions: Option<seq<Position>>, symbol: string) returns (qty: int)
    ensures positions.None? ==> qty == 0
    ensures positions.Some? && (forall j :: 0 <= j < |positions.value| ==> positions.value[j].tradingSymbol != symbol)
            ==> qty == 0
    ensures positions.Some? ==>
      forall i :: 0 <= i < |positions.value| && positions.value[i].tradingSymbol == symbol
                  && (forall j :: 0 <= j < i ==> positions.value[j].tradingSymbol != symbol)
                  ==> qty == positions.value[i].quantity
    ensures qty == NetQuantity(positions, symbol)
  {
    if positions.None? {
      return 0;
    }
    var ps := positions.value;
    var i := 0;
    while i < |ps|
      invariant 0 <= i <= |ps|
      invariant forall j :: 0 <= j < i ==> ps[j].tradingSymbol != symbol
    {
      if ps[i].tradingSymbol == symbol {
        return ps[i].quantity;
      }
      i := i + 1;
    }
    return 0;
  }

  /** The lot size the instrument list gives for `symbol`: the first matching row's; none if absent or the fetch failed. */
  function CatalogLotSize(instruments: Option<seq<Instrument>>, symbol: string): Option<int> {
    match instruments
    case None => None
    case Some(items) =>
      match FirstIndex(InstrumentSymbols(items), symbol)
      case None => None
      case Some(i) => Some(items[i].lotSize)
  }

  /** The answer of the cached lot-size lookup: the cached value, else the catalog's, else 1. */
  function LotSizeLookup(cache: map<string, int>, instruments: Option<seq<Instrument>>, symbol: string): int {
    if symbol in cache then cache[symbol] else CatalogLotSize(instruments, symbol).GetOr(1)
  }

  /** The cache after the lookup: a catalog hit is stored; a miss or a failed fetch stores nothing. */
  function CacheAfterLookup(cache: map<string, int>, instruments: Option<seq<Instrument>>, symbol: string): map<string, int> {
    if symbol in cache then cache
    else match CatalogLotSize(instruments, symbol)
      case None => cache
      case Some(lot) => cache[symbol := lot]
  }

  /**
   * The cache is never invalidated: a lookup keeps every cached entry, adds
   * at most the looked-up symbol, and afterwards holds the answer it gave
   * unless that answer was the default for a symbol the catalog lacks.
   */
  lemma CacheOnlyGrows(cache: map<string, int>, instruments: Option<seq<Instrument>>, symbol: string)
    ensures var after := CacheAfterLookup(cache, instruments, symbol);
      && (forall k :: k in cache ==> k in after && after[k] == cache[k])
      && after.Keys <= cache.Keys + {symbol}
      && (symbol in after <==> symbol in cache || CatalogLotSize(instruments, symbol).Some?)
      && (symbol in after ==> after[symbol] == LotSizeLookup(cache, instruments, symbol))
  {
  }

  /**
   * Once a lookup has found a lot size, every later lookup of that symbol
   * returns the same size whatever the catalog then says, and adds nothing.
   */
  lemma CachedLookupStable(cache: map<string, int>, first: Option<seq<Instrument>>,
                           later: Option<seq<Instrument>>, symbol: string)
    requires symbol in cache || CatalogLotSize(first, symbol).Some?
    ensures var c := CacheAfterLookup(cache, first, symbol);
      && LotSizeLookup(c, later, symbol) == LotSizeLookup(cache, first, symbol)
      && CacheAfterLookup(c, later, symbol) == c
  {
  }

  /** A symbol the catalog lacks, or a failed fetch, yields the default lot of 1 and leaves the cache as it was. */
  lemma UnknownLotSizeDefaults(cache: map<string, int>, instruments: Option<seq<Instrument>>, symbol: string)
    requires symbol !in cache
    requires instruments.None? || forall j :: 0 <= j < |instruments.value| ==> instruments.value[j].tradingSymbol != symbol
    ensures LotSizeLookup(cache, instruments, symbol) == 1
    ensures CacheAfterLookup(cache, instruments, symbol) == cache
  {
  }

  /** An exit order followed by an entry order for `lot` leaves the position at exactly that entry. */
  lemma {:induction false} ExitThenEnter(futSymbol: string, qty: int, side: string, lot: int)
    ensures qty + NetEffect([ExitOrder(futSymbol, qty), EntryOrder(futSymbol, side, lot)])
            == if side == "LONG" then lot else -lot
  {
    var orders := [ExitOrder(futSymbol, qty), EntryOrder(futSymbol, side, lot)];
    assert orders[1..] == [orders[1]] && orders[1..][1..] == [];
    assert NetEffect(orders[1..]) == SignedQuantity(orders[1]);
  }
}
