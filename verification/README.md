# Futures signal bot: contract resolver and decision engine

This project models, in Dafny, the part of the `stock_fut_hedge_bot.py` webhook
bot that turns an inbound trading signal into futures orders:

- **Contract resolver** (`Contract`, on top of `Calendar`). It finds the last Thursday of the
  current month by stepping back one day at a time from the month's last day. Weekdays are
  numbered as in Python, Monday 0, so Thursday is 3. The cutoff is four days before that
  Thursday. Up to and including the cutoff, the symbol is `ROOT + YY + MON + "FUT"` for the
  current month. After it, the symbol is for the next month, and December rolls to January of
  the next year. Dates use Python's proleptic Gregorian ordinals.
- **Inbound normalisation** (`Normalize`). The signal is lower-cased; `buy` becomes `LONG`,
  `sell` becomes `SHORT`, and anything else is upper-cased. In the timeframe, every `minutes`
  becomes `m`, then every `min` becomes `m`, and an `m` is appended unless the result already
  ends in one. The symbol is upper-cased, then everything but `A`-`Z` is dropped.
- **Broker records and lookups** (`Broker`). Instrument and position rows, the exit and entry
  market orders, the first-match lookups, and the cached lot-size lookup as functions.
- **Decision engine** (`Engine`). The class `Bot` holds the process's two dictionaries:
  `signals` (symbol → 5-minute signal and last side traded) and `lotSizeCache`.
  `GetLotSize`, `EnterPosition`, `HandleTradeDecision` and `Webhook` update them in place
  and return the orders placed. The pure function `PlannedOrders` states what one decision
  places. The lemmas beside it prove three things: the no-op cases; the exit-then-enter
  shape; and that after a trade the position is exactly one lot on the new side.

The broker is passed in as data. `instruments` and `positions` are `Option` sequences, where
`None` stands for a fetch that raised, which the bot treats as "not found". The clock is a
`today: Date` parameter. Whether the broker client could be built is a `clientOk: bool`
parameter. The orders placed are returned as a sequence of `Order(symbol, side, quantity)`.

The decision is memo-based, as in the code. It compares the stored signal with the side last
recorded, not with the side of the live position. It exits whenever the broker reports a
non-zero quantity, even when that position is already on the wanted side.
`Engine.ReentersOpenPosition` and `Engine.IgnoresManualClose` show both consequences. This
file has no reconciler driven by the live position, no catalog-driven expiry or rollover, no
alias table and no hedge leg, so the model has none either. The default entry that `enter_position` adds under the *futures*
symbol is modelled as written. `Engine.FuturesKeysUnreachable` proves that no webhook call
can ever read that entry.

## Model

| member | source | states |
|---|---|---|
| `Calendar.NextMonthFirst` | stock_fut_hedge_bot.py:128 | the first of the next month is a valid date: month + 1 in the same year, or January 1 of the next year after December |
| `Calendar.LastDayPrecedesNextMonth` | stock_fut_hedge_bot.py:128-129 | stepping one day back from the next month's first lands on the month's last day, `DaysInMonth(y, m)`, across the year boundary too |
| `Calendar.YearLength` | stock_fut_hedge_bot.py:128-129 | a Gregorian year has 366 days when it is a leap year and 365 otherwise (the ordinal step behind the December case) |
| `Contract.LastThursdayFacts` | stock_fut_hedge_bot.py:129-131 | the last Thursday lies in the month's last seven days and on or after the 22nd, is a Thursday (weekday 3), and no later day of the month is one |
| `Contract.LastThursday` | stock_fut_hedge_bot.py:129-131 | the back-stepping loop stops after at most six steps, at a Thursday on or after the 22nd with no Thursday after it in the month, so the cutoff stays inside the month |
| `Contract.Decimal` | stock_fut_hedge_bot.py:136 | `str(n)` of a natural number is a non-empty string of decimal digits, at least two long from 10 on |
| `Contract.YearSuffixDigits` | stock_fut_hedge_bot.py:136 | `str(year)[2:]` of a four-digit year is its tens digit followed by its units digit |
| `Contract.ContractSymbolShape` | stock_fut_hedge_bot.py:136-138 | a symbol is the root, the two year digits, the three-letter upper-case month and "FUT", eight characters longer than the root |
| `Contract.ContractSymbolInjective` | stock_fut_hedge_bot.py:136-138 | two symbols of one root are equal iff they have the same month and the same last two year digits |
| `Contract.ActiveContract` | stock_fut_hedge_bot.py:124-138 | the current month's symbol when the day is on or before lastThursday − 4; otherwise the next month's, with December going to January of year + 1 |
| `Contract.CutoffInMonth` | stock_fut_hedge_bot.py:132 | the cutoff is a valid date of the same month, between the 18th and four days before the month's end |
| `Contract.CurrentMonthIff` | stock_fut_hedge_bot.py:132-138 | the resolved symbol is the current month's iff today's day is at or before the cutoff day |
| `Contract.EarlyAndLateDays` | stock_fut_hedge_bot.py:132-138 | days up to the 17th always resolve to the current month; the month's last four days always resolve to the next |
| `Normalize.NormalizeSignal` | stock_fut_hedge_bot.py:151-153 | the result is LONG iff the lower-cased input is buy or long, SHORT iff it is sell or short, and otherwise the input upper-cased |
| `Normalize.NormalizeSignalIdempotent` | stock_fut_hedge_bot.py:145-153 | normalising a normalised signal returns it unchanged |
| `Normalize.ReplaceAllSkips` | stock_fut_hedge_bot.py:147 | `str.replace` passes through unchanged a prefix that holds no occurrence of the pattern's first character |
| `Normalize.NormalizeTimeframe` | stock_fut_hedge_bot.py:146-149 | the normalised timeframe always ends in "m" |
| `Normalize.MinuteSpellings` | stock_fut_hedge_bot.py:146-149 | a digit count followed by nothing, "m", "min" or "minutes" in any case normalises to the count followed by "m" |
| `Normalize.FiveMinutesUpperCase` | stock_fut_hedge_bot.py:146-149 | "5MINUTES" normalises to "5m" |
| `Normalize.KeepUpperLetters` | stock_fut_hedge_bot.py:155 | dropping every non-`A`-`Z` character leaves only `A`-`Z` characters and never lengthens the text |
| `Normalize.KeepUpperLettersConcat` | stock_fut_hedge_bot.py:155 | the filter distributes over concatenation |
| `Normalize.KeepUpperLettersFixpoint` | stock_fut_hedge_bot.py:155 | the filter leaves a text unchanged iff the text is `A`-`Z` only |
| `Normalize.CleanSymbol` | stock_fut_hedge_bot.py:155 | the cleaned symbol holds only characters `A`-`Z` and is no longer than the raw one |
| `Normalize.CleanSymbolConcat` | stock_fut_hedge_bot.py:155 | cleaning distributes over concatenation |
| `Normalize.CleanSymbolFixpoint` | stock_fut_hedge_bot.py:155 | a symbol is unchanged by cleaning iff it consists of `A`-`Z` only |
| `Normalize.CleanSymbolIdempotent` | stock_fut_hedge_bot.py:155 | cleaning a cleaned symbol returns it unchanged |
| `Normalize.CleanSymbolLetters` | stock_fut_hedge_bot.py:155 | a symbol spelled with ASCII letters only comes back upper-cased, with nothing dropped |
| `Normalize.ExchangePrefixKept` | stock_fut_hedge_bot.py:155 | an "NSE:" prefix is not stripped: its letters stay and only the colon goes |
| `Normalize.CleanSymbolNoLetters` | stock_fut_hedge_bot.py:155 | a symbol without letters cleans to the empty string |
| `Broker.ExitOrder` | stock_fut_hedge_bot.py:87-97 | the exit order is for the contract, SELL iff the quantity is positive, for its absolute value, and brings the signed position to 0 |
| `Broker.EntryOrder` | stock_fut_hedge_bot.py:64-74 | the entry order is for the contract and the lot size, BUY iff the side is LONG, SELL otherwise |
| `Broker.FirstIndex` | stock_fut_hedge_bot.py:117-119 | the index found holds the symbol and no earlier entry does; none means no entry holds it (the first-match rule of both scans) |
| `Broker.PositionQuantity` | stock_fut_hedge_bot.py:114-122 | the quantity of the first row for the symbol; 0 when no row has it or the fetch failed |
| `Broker.CacheOnlyGrows` | stock_fut_hedge_bot.py:48-61 | a lookup keeps every cached entry and adds at most the looked-up symbol. It adds it iff the catalog has it, with the value it returned |
| `Broker.CachedLookupStable` | stock_fut_hedge_bot.py:49-50 | once a lot size has been found, later lookups of that symbol return it whatever the catalog then says, and change nothing |
| `Broker.UnknownLotSizeDefaults` | stock_fut_hedge_bot.py:58-61 | a symbol the catalog lacks, or a failed fetch, gives lot size 1 and leaves the cache unchanged |
| `Broker.ExitThenEnter` | stock_fut_hedge_bot.py:63-97 | after an exit of the position and an entry of `lot`, the position is +lot for LONG and −lot otherwise |
| `Engine.Seeded` | stock_fut_hedge_bot.py:157-158 | an unseen key gets `{"5m": "", "last_action": "NONE"}`; every existing entry is kept as it was |
| `Engine.Bot.constructor` | stock_fut_hedge_bot.py:30-31 | the process starts with both dictionaries empty |
| `Engine.Bot.GetLotSize` | stock_fut_hedge_bot.py:48-61 | a cached symbol returns its cached value with the cache unchanged; otherwise the catalog's first match, which is cached, or 1, with nothing cached |
| `Engine.Bot.EnterPosition` | stock_fut_hedge_bot.py:63-85 | places one lot BUY for LONG, SELL otherwise, at the looked-up lot size, and adds a default entry under the futures symbol if it is absent |
| `Engine.Bot.HandleTradeDecision` | stock_fut_hedge_bot.py:100-112 | places `PlannedOrders` for the stored entry, the active contract and the broker quantity. It records the new side after a trade and otherwise changes nothing |
| `Engine.Bot.Webhook` | stock_fut_hedge_bot.py:141-172 | seeds an unseen cleaned symbol. A non-5m timeframe changes nothing else and places nothing. A 5m one stores the signal and then runs the decision when the client is available. A missing body changes nothing |
| `Engine.ContractSymbolsExtendRoot` | stock_fut_hedge_bot.py:105-112 | the futures symbol is eight characters longer than the root, so the entry keyed by it never overwrites the root's |
| `Engine.DecisionShape` | stock_fut_hedge_bot.py:100-112 | orders are placed iff the stored signal is LONG or SHORT and differs from the last side: [exit, enter] for a non-zero quantity, [enter] for zero |
| `Engine.TradeLeavesOneLot` | stock_fut_hedge_bot.py:106-111 | after a trade the signed position is exactly one lot on the new side, whatever it was before |
| `Engine.SameSignalTradesOnce` | stock_fut_hedge_bot.py:108-112 | once a signal has been traded, storing it again calls for no order |
| `Engine.ReentersOpenPosition` | stock_fut_hedge_bot.py:106-111 | with a long position open and no side recorded, a LONG signal sells the position and buys one lot again |
| `Engine.IgnoresManualClose` | stock_fut_hedge_bot.py:108 | with LONG recorded, a LONG signal places nothing even when the broker reports no position |
| `Engine.FuturesKeysUnreachable` | stock_fut_hedge_bot.py:84-85 | no cleaned symbol equals a futures symbol, so the entries keyed by futures symbols are never read by a webhook call |
| `Engine.ResendIsIdempotent` | stock_fut_hedge_bot.py:141-168 | the same payload sent twice with a working client places nothing the second time, even if positions, instruments or the day changed |

## Left out

- `token_manager.py` is not part of this model. It persists the access token, reads interactive input and starts broker sessions.
- The Flask app, its routes and the `jsonify` responses are replaced by the `Status` result of `Engine.Bot.Webhook`.
- `get_kite_client` reads `token.json`; its outcome is the `clientOk` input.
- Logging and the JSON trade-log append in `enter_position` are file output only.
- The broker calls `instruments`, `positions` and `place_order` are inputs and outputs. Every placed order is taken to succeed. A `place_order` that raises would abort the decision half-way. That exception path is not modelled.
- `datetime.now()` is the `today` input. `strftime('%b')` assumes English month abbreviations.
- Engine.Bot.Webhook: requires a year from 1000 to 9998 (`str(year)[2:]` must be two digits, and December's next year must exist), and requires ASCII payload fields. A body that is not a JSON object is modelled (`None`). Fields that are present but not strings, where `.lower()` raises, are not.
- Engine.Bot.HandleTradeDecision: requires a year from 1000 to 9998, for the same reason.
- Contract.ActiveContract: requires a year from 1000 to 9998. In December 9999, Python's `datetime(10000, 1, 1)` raises, and the model does not cover that case.
- Normalize.NormalizeSignal: case mapping is modelled for ASCII only (`requires IsAscii`). Python's Unicode rules, such as `'ß'.upper() == 'SS'`, are not modelled.
- Normalize.NormalizeTimeframe: ASCII only, as for the signal.
- Normalize.CleanSymbol: ASCII only. Under Python's Unicode `upper()`, characters such as `'ı'` become `I` and would survive the filter.
- Instrument or position rows without a `tradingsymbol`, `lot_size` or `quantity` key raise `KeyError` mid-scan. The model's rows always have these fields.
- Concurrent webhook requests racing on `signals` and `lot_size_cache` are not modelled; the model is sequential.
