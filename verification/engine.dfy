/**
 * The decision engine of the hedge bot. The process keeps two dictionaries
 * for its whole life: `signals`, from a cleaned symbol to its latest
 * 5-minute signal and the side last traded, and `lotSizeCache`, from a
 * futures symbol to its lot size. A webhook call normalises the payload,
 * records the signal and, for the 5-minute timeframe, trades when the signal
 * is a direction different from the side last traded: it closes whatever
 * position the broker reports in the active contract and enters one lot on
 * the new side.
 *
 * The broker's instrument list and net positions, the clock and the outcome
 * of building the broker client are parameters; the orders placed are the
 * result.
 */
module Engine {
  import opened Wrappers
  import opened Calendar
  import opened Contract
  import opened Normalize
  import opened Broker

  /** An entry of `signals`: the stored 5-minute signal and the last side traded ("NONE" before any trade). */
  datatype Memo = Memo(fiveMin: string, lastAction: string)

  /** The entry a symbol gets when first seen. */
  const NewMemo := Memo("", "NONE")

  predicate IsDirection(s: string) {
    s == "LONG" || s == "SHORT"
  }

  /** The values `lastAction` can take. */
  predicate IsLastAction(s: string) {
    s == "NONE" || IsDirection(s)
  }

  /** The webhook's JSON body; a missing key reads as "". */
  datatype Payload = Payload(symbol: Option<string>, signal: Option<string>, timeframe: Option<string>)

  /** Which branch the webhook took. */
  datatype Status = Processed | ClientFailed | IgnoredTimeframe | Failed

  /** A symbol's entry is added if absent and left alone if present. */
  function Seeded(signals: map<string, Memo>, key: string): (r: map<string, Memo>)
    ensures key in r && r.Keys == signals.Keys + {key}
    ensures forall k :: k in signals ==> r[k] == signals[k]
    ensures key !in signals ==> r[key] == NewMemo
  {
    if key in signals then signals else signals[key := NewMemo]
  }

  /** `handle_trade_decision` trades exactly when the stored signal is a direction other than the last side traded. */
  predicate Trades(m: Memo) {
    IsDirection(m.fiveMin) && m.fiveMin != m.lastAction
  }

  /**
   * The orders one decision places, given the symbol's entry, the active
   * contract, the quantity the broker reports in it and the lot size:
   * nothing, or an exit of the reported quantity (when non-zero) followed by
   * an entry of one lot on the new side.
   */
  function PlannedOrders(m: Memo, futSymbol: string, qty: int, lot: int): seq<Order> {
    if !Trades(m) then []
    else (if qty != 0 then [ExitOrder(futSymbol, qty)] else []) + [EntryOrder(futSymbol, m.fiveMin, lot)]
  }

  /** The normalised fields of a payload, in the order the webhook computes them. */
  function CleanedSymbolOf(p: Payload): string
    requires IsAscii(p.symbol.GetOr(""))
  {
    CleanSymbol(p.symbol.GetOr(""))
  }

  function SignalOf(p: Payload): string
    requires IsAscii(p.signal.GetOr(""))
  {
    NormalizeSignal(p.signal.GetOr(""))
  }

  function TimeframeOf(p: Payload): string
    requires IsAscii(p.timeframe.GetOr(""))
  {
    NormalizeTimeframe(p.timeframe.GetOr(""))
  }

  predicate AsciiPayload(p: Payload) {
    IsAscii(p.symbol.GetOr("")) && IsAscii(p.signal.GetOr("")) && IsAscii(p.timeframe.GetOr(""))
  }

  /** The module-level state of the bot process. */
  class Bot {
    var signals: map<string, Memo>
    var lotSizeCache: map<string, int>

    /** Every entry's last side is "NONE", "LONG" or "SHORT". */
    ghost predicate Valid()
      reads this
    {
      forall k :: k in signals ==> IsLastAction(signals[k].lastAction)
    }

    constructor ()
      ensures Valid()
      ensures signals == map[] && lotSizeCache == map[]
    {
      signals := map[];
      lotSizeCache := map[];
    }

    /**
     * `get_lot_size`: the cached size if there is one; otherwise scan the
     * instrument list, cache and return the first match's size; otherwise 1,
     * cached nowhere.
     */
    method GetLotSize(instruments: Option<seq<Instrument>>, symbol: string) returns (lot: int)
      modifies this`lotSizeCache
      ensures symbol in old(lotSizeCache) ==> lot == old(lotSizeCache)[symbol] && lotSizeCache == old(lotSizeCache)
      ensures lot == LotSizeLookup(old(lotSizeCache), instruments, symbol)
      ensures lotSizeCache == CacheAfterLookup(old(lotSizeCache), instruments, symbol)
    {
      if symbol in lotSizeCache {
        return lotSizeCache[symbol];
      }
      if instruments.None? {
        return 1;
      }
      var items := instruments.value;
      var i := 0;
      while i < |items|
        invariant 0 <= i <= |items|
        invariant forall j :: 0 <= j < i ==> items[j].tradingSymbol != symbol
        invariant lotSizeCache == old(lotSizeCache)
      {
        if items[i].tradingSymbol == symbol {
          lot := items[i].lotSize;
          lotSizeCache := lotSizeCache[symbol := lot];
          return;
        }
        i := i + 1;
      }
      return 1;
    }

    /**
     * `enter_position`: one lot in `futSymbol`, bought for "LONG" and sold
     * otherwise; afterwards `signals` has an entry keyed by the futures
     * symbol itself.
     */
    method EnterPosition(instruments: Option<seq<Instrument>>, futSymbol: string, side: string) returns (order: Order)
      requires Valid()
      modifies this
      ensures Valid()
      ensures order == EntryOrder(futSymbol, side, LotSizeLookup(old(lotSizeCache), instruments, futSymbol))
      ensures lotSizeCache == CacheAfterLookup(old(lotSizeCache), instruments, futSymbol)
      ensures signals == Seeded(old(signals), futSymbol)
    {
      var lotQty := GetLotSize(instruments, futSymbol);
      order := EntryOrder(futSymbol, side, lotQty);
      if futSymbol !in signals {
        signals := signals[futSymbol := NewMemo];
      }
    }

    /**
     * `handle_trade_decision` for a symbol that has an entry: resolve the
     * active contract on `today`, read the broker's quantity in it and, if
     * the entry calls for a trade, exit that quantity, enter one lot and
     * record the new side.
     */
    method HandleTradeDecision(symbol: string, today: Date, positions: Option<seq<Position>>,
                               instruments: Option<seq<Instrument>>) returns (orders: seq<Order>)
      requires Valid() && symbol in signals
      requires ValidDate(today) && SupportedYear(today.year)
      modifies this
      ensures Valid()
      ensures var m := old(signals)[symbol];
        var fut := ContractFor(symbol, today);
        orders == PlannedOrders(m, fut, NetQuantity(positions, fut), LotSizeLookup(old(lotSizeCache), instruments, fut))
      ensures var m := old(signals)[symbol];
        var fut := ContractFor(symbol, today);
        Trades(m) ==>
          && signals == Seeded(old(signals), fut)[symbol := m.(lastAction := m.fiveMin)]
          && lotSizeCache == CacheAfterLookup(old(lotSizeCache), instruments, fut)
      ensures !Trades(old(signals)[symbol]) ==> signals == old(signals) && lotSizeCache == old(lotSizeCache)
    {
      orders := [];
      var signal5m := signals[symbol].fiveMin;
      if IsDirection(signal5m) {
        var newSignal := signal5m;
        var lastAction := signals[symbol].lastAction;
        var fut := ActiveContract(symbol, today);
        var qty := PositionQuantity(positions, fut);
        if newSignal != lastAction {
          ContractSymbolsExtendRoot(symbol, today);
          if qty != 0 {
            orders := orders + [ExitOrder(fut, qty)];
          }
          var entry := EnterPosition(instruments, fut, newSignal);
          orders := orders + [entry];
          signals := signals[symbol := signals[symbol].(lastAction := newSignal)];
        }
      }
    }

    /**
     * The webhook: normalise the payload, give an unseen symbol an entry,
     * and for the 5-minute timeframe store the signal and, when the broker
     * client could be built, run the decision. A body that is not a JSON
     * object fails before anything changes.
     */
    method Webhook(data: Option<Payload>, today: Date, clientOk: bool,
                   positions: Option<seq<Position>>, instruments: Option<seq<Instrument>>)
      returns (status: Status, orders: seq<Order>)
      requires Valid()
      requires ValidDate(today) && SupportedYear(today.year)
      requires data.Some? ==> AsciiPayload(data.value)
      modifies this
      ensures Valid()
      ensures data.None? ==>
        status == Failed && orders == [] && signals == old(signals) && lotSizeCache == old(lotSizeCache)
      ensures data.Some? && TimeframeOf(data.value) != "5m" ==>
        && status == IgnoredTimeframe && orders == []
        && signals == Seeded(old(signals), CleanedSymbolOf(data.value))
        && lotSizeCache == old(lotSizeCache)
      ensures data.Some? && TimeframeOf(data.value) == "5m" ==>
        var sym := CleanedSymbolOf(data.value);
        var m := Seeded(old(signals), sym)[sym].(fiveMin := SignalOf(data.value));
        var stored := Seeded(old(signals), sym)[sym := m];
        var fut := ContractFor(sym, today);
        if !clientOk then
          status == ClientFailed && orders == [] && signals == stored && lotSizeCache == old(lotSizeCache)
        else
          && status == Processed
          && orders == PlannedOrders(m, fut, NetQuantity(positions, fut), LotSizeLookup(old(lotSizeCache), instruments, fut))
          && (Trades(m) ==>
                && signals == Seeded(stored, fut)[sym := m.(lastAction := m.fiveMin)]
                && lotSizeCache == CacheAfterLookup(old(lotSizeCache), instruments, fut))
          && (!Trades(m) ==> signals == stored && lotSizeCache == old(lotSizeCache))
    {
      orders := [];
      if data.None? {
        return Failed, [];
      }
      var rawSymbol := data.value.symbol.GetOr("");
      var signal := NormalizeSignal(data.value.signal.GetOr(""));
      var timeframe := NormalizeTimeframe(data.value.timeframe.GetOr(""));
      var cleanedSymbol := CleanSymbol(rawSymbol);
      if cleanedSymbol !in signals {
        signals := signals[cleanedSymbol := NewMemo];
      }
      if timeframe == "5m" {
        signals := signals[cleanedSymbol := signals[cleanedSymbol].(fiveMin := signal)];
        if clientOk {
          orders := HandleTradeDecision(cleanedSymbol, today, positions, instruments);
          return Processed, orders;
        }
        return ClientFailed, [];
      }
      return IgnoredTimeframe, [];
    }
  }

  /** A contract symbol is longer than its root, so the entry `enter_position` adds never overwrites the root's own. */
  lemma ContractSymbolsExtendRoot(root: string, today: Date)
    requires ValidDate(today) && SupportedYear(today.year)
    ensures |ContractFor(root, today)| == |root| + 8
    ensures ContractFor(root, today) != root
  {
    var (ny, nm) := NextMonth(today.year, today.month);
    ContractSymbolShape(root, today.year, today.month);
    ContractSymbolShape(root, ny, nm);
  }

  // ---------------------------------------------------------------------
  // Properties of a decision
  // ---------------------------------------------------------------------

  /**
   * A decision places orders exactly when the stored signal is LONG or SHORT
   * and differs from the last side traded; then it places an exit followed
   * by an entry when the broker reports a non-zero quantity, and the entry
   * alone otherwise.
   */
  lemma DecisionShape(m: Memo, futSymbol: string, qty: int, lot: int)
    ensures PlannedOrders(m, futSymbol, qty, lot) == [] <==> !Trades(m)
    ensures Trades(m) && qty != 0 ==>
      PlannedOrders(m, futSymbol, qty, lot) == [ExitOrder(futSymbol, qty), EntryOrder(futSymbol, m.fiveMin, lot)]
    ensures Trades(m) && qty == 0 ==>
      PlannedOrders(m, futSymbol, qty, lot) == [EntryOrder(futSymbol, m.fiveMin, lot)]
  {
  }

  /**
   * After a trade the broker position in the contract is exactly one lot on
   * the new side, long for LONG and short for SHORT, whatever it was before.
   */
  lemma {:induction false} TradeLeavesOneLot(m: Memo, futSymbol: string, qty: int, lot: int)
    requires Trades(m)
    ensures qty + NetEffect(PlannedOrders(m, futSymbol, qty, lot)) == if m.fiveMin == "LONG" then lot else -lot
  {
    if qty != 0 {
      ExitThenEnter(futSymbol, qty, m.fiveMin, lot);
    } else {
      var orders := PlannedOrders(m, futSymbol, qty, lot);
      assert orders == [EntryOrder(futSymbol, m.fiveMin, lot)];
      assert orders[1..] == [];
    }
  }

  /**
   * Re-sending a signal that was just traded places nothing: the entry after
   * the trade, with the same signal stored again, calls for no trade,
   * whatever the broker then reports and whatever contract is then active.
   */
  lemma SameSignalTradesOnce(m: Memo, futSymbol: string, qty: int, lot: int)
    requires Trades(m)
    ensures var after := m.(lastAction := m.fiveMin);
      PlannedOrders(after.(fiveMin := m.fiveMin), futSymbol, qty, lot) == []
  {
  }

  /**
   * The decision follows the memo, not the broker: with a long position
   * already open and no side recorded (after a restart, say), a LONG signal
   * sells the position and buys a lot again ...
   */
  lemma ReentersOpenPosition(futSymbol: string, qty: int, lot: int)
    requires qty > 0
    ensures PlannedOrders(Memo("LONG", "NONE"), futSymbol, qty, lot)
            == [Order(futSymbol, Sell, qty), Order(futSymbol, Buy, lot)]
  {
  }

  /** ... and with the side recorded as LONG, a LONG signal places nothing even if the position was closed outside the bot. */
  lemma IgnoresManualClose(futSymbol: string, lot: int)
    ensures PlannedOrders(Memo("LONG", "LONG"), futSymbol, 0, lot) == []
  {
  }

  /**
   * The entries `enter_position` keys by futures symbol are never read by a
   * webhook call: a futures symbol carries the year's digits, while a
   * cleaned symbol holds A-Z only.
   */
  lemma FuturesKeysUnreachable(raw: string, root: string, today: Date)
    requires IsAscii(raw)
    requires ValidDate(today) && SupportedYear(today.year)
    ensures CleanSymbol(raw) != ContractFor(root, today)
  {
    var (ny, nm) := NextMonth(today.year, today.month);
    ContractSymbolShape(root, today.year, today.month);
    ContractSymbolShape(root, ny, nm);
    var fut := ContractFor(root, today);
    assert !IsUpperLetter(fut[|root|]);
  }

  /**
   * Sending the same payload twice in a row, both times with a working
   * broker client, places orders at most once: the second call places
   * nothing, even if positions, instruments or the day have changed.
   */
  method ResendIsIdempotent(bot: Bot, data: Payload, today1: Date, today2: Date,
                            positions1: Option<seq<Position>>, instruments1: Option<seq<Instrument>>,
                            positions2: Option<seq<Position>>, instruments2: Option<seq<Instrument>>)
    returns (first: seq<Order>, second: seq<Order>)
    requires bot.Valid() && AsciiPayload(data)
    requires ValidDate(today1) && SupportedYear(today1.year)
    requires ValidDate(today2) && SupportedYear(today2.year)
    modifies bot
    ensures bot.Valid()
    ensures second == []
  {
    var status1, status2;
    status1, first := bot.Webhook(Some(data), today1, true, positions1, instruments1);
    status2, second := bot.Webhook(Some(data), today2, true, positions2, instruments2);
  }
}
