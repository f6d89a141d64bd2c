# Order-book imbalance strategy: a Dafny model

This project models the example strategy `OrderBookImbalance` of the trading
platform: a strategy that watches the best bid and ask of one instrument's order
book and, when one side is much thinner than the other, sends a fill-or-kill limit
order that takes the whole thinner side. The model covers the configuration checks
made at construction, the start-up and quote-tick gating, and the trigger check with
its chain of guards, its side choice and its last-trigger timestamp.

Two modules:

- `ImbalanceRule` (`imbalance_rule.dfy`): values and pure functions. `CheckConfig` is
  the construction checks. `Decide` is the outcome of one trigger check. `Replay` is
  the orders sent by successive trigger checks. The lemmas about `Replay` prove the
  throttling the configuration promises: orders are at least
  `min_seconds_between_triggers` apart, so their number is bounded by the elapsed time.
- `ImbalanceStrategy` (`orderbook_imbalance.dfy`): the class `OrderBookImbalance`.
  Its fields are the ones the source updates: instrument, book type, book, indicator
  value and last trigger timestamp. Its handlers are methods whose postconditions tie
  the outcome to `Decide` and state the whole new state. In particular, the timestamp
  moves to "now" exactly when an order is sent. `Valid()` is the invariant every
  method keeps: the configuration was accepted, the book type is the configured one,
  and a loaded instrument always comes with a trigger time. The last point is why the
  elapsed-time subtraction never meets a missing timestamp.

Representation choices:

- Prices, sizes and the imbalance ratio are `real`.
- Clock readings are integer nanoseconds. `min_seconds_between_triggers` stays in
  seconds. The elapsed seconds are `(now - last) / 1e9`.
- A size that is missing or zero counts as "no market" (an assumption about the
  foreign `Quantity` type, listed under "## Left out").
- The best price and best size of a side come from the same top level, so they are
  one `Option<Level>`.
- Framework calls are recorded on the object rather than performed: the
  subscriptions made on start, the orders submitted, the stop request, and the
  cancel and close actions taken on stop.
- Inputs: the cache (a map from instrument id to instrument), the best levels of the
  book after an update, the indicator's value, the number of in-flight orders, and
  the clock reading.

`DeliverDeltas` delivers a sequence of book-delta updates to a started strategy
object, one `OnOrderBookDeltas` call each. Its postcondition says the object submits
exactly `Replay`'s orders and ends with `Replay`'s last trigger time, so the
throttling lemmas about `Replay` hold of the object itself. It changes only the book,
the indicator value, the trigger time and the submitted orders, and leaves the book
and indicator at the last update's values.

The configuration's documentation describes the ratio as smaller over larger volume
and gives an example: with ratio 0.2 and a bid volume of 100, a buy is sent when the
ask volume is below 20. `ImbalancedBySizes` proves that reading of the trigger
condition, given an indicator that computes smaller over larger size. The example
itself never triggers under the default `trigger_min_size` of 100, because the code
requires the larger side to exceed the minimum size strictly
(`DocumentedExampleNotTriggered`). The model follows the code.

## Model

| member | source | states |
|---|---|---|
| `ImbalanceRule.CheckConfig` | nautilus_trader/examples/strategies/orderbook_imbalance_rust.py:98-112 | accepted exactly when 0 < ratio < 1, quote ticks imply book type "L1_MBP", and the book type parses; errors in the source's order (ratio first, then the quote-tick rule, then an unknown book type name); on success yields the parsed book type, L1_MBP when quote ticks are used |
| `ImbalanceRule.BookTypeFromStr` | nautilus_trader/examples/strategies/orderbook_imbalance_rust.py:112 | parses exactly the three book type names and is the inverse of naming, in both directions |
| `ImbalanceRule.DefaultConfig` | nautilus_trader/examples/strategies/orderbook_imbalance_rust.py:74-81 | the defaults (min size 100, ratio 0.20, 1 second, L2_MBP, no quote ticks) pass the construction checks with book type L2_MBP |
| `ImbalanceRule.Decide` | nautilus_trader/examples/strategies/orderbook_imbalance_rust.py:166-224 | each outcome holds exactly under its guard chain: no instrument; missing or zero best size; not (larger size > min size and ratio < configured ratio, both strict); in-flight orders suppress whatever the time; too soon; otherwise an order. The order is FOK, not post-only, on the loaded instrument, for the whole thinner side: BUY at the ask when bid size > ask size, otherwise (ties included) SELL at the bid |
| `ImbalanceRule.OrderQuantityIgnoresMaxTradeSize` | nautilus_trader/examples/strategies/orderbook_imbalance_rust.py:200-208 | with a maximum trade size of 1 and an ask of 50 under a bid of 500, the order sent is a BUY for 50: the quantity is not capped by the maximum trade size |
| `ImbalanceRule.Replay` | nautilus_trader/examples/strategies/orderbook_imbalance_rust.py:166-224 | successive trigger checks send at most one order per market update |
| `ImbalanceRule.ReplaySnoc` | nautilus_trader/examples/strategies/orderbook_imbalance_rust.py:188-222 | one more update extends a run by exactly the outcome of one trigger check made with the run's last trigger time |
| `ImbalanceRule.ReplaySpacing` | nautilus_trader/examples/strategies/orderbook_imbalance_rust.py:188-222 | every order is sent at least min_seconds_between_triggers after the previous one, and the first that long after the start time |
| `ImbalanceRule.ReplayRateBound` | nautilus_trader/examples/strategies/orderbook_imbalance_rust.py:188-222 | the minimum intervals of all orders sent, one per order, fit in the time elapsed from the start to any horizon that bounds the clock readings; their sum `Intervals` is the number of orders times the interval (`IntervalsIsProduct`) |
| `ImbalanceRule.ReplayOrderCountBound` | nautilus_trader/examples/strategies/orderbook_imbalance_rust.py:188-222 | the number of orders sent times min_seconds_between_triggers is at most the time elapsed from the start to any horizon that bounds the clock readings |
| `ImbalanceRule.ImbalancedBySizes` | nautilus_trader/examples/strategies/orderbook_imbalance_rust.py:52-56 | with positive sizes and the ratio as smaller over larger size, the trigger condition holds exactly when the larger side exceeds the minimum size and the smaller side is below the configured ratio of the larger |
| `ImbalanceRule.DocumentedExampleNotTriggered` | nautilus_trader/examples/strategies/orderbook_imbalance_rust.py:76 | the documented example (bid 100, ask 19, ratio 0.19) sends nothing under the default minimum size of 100, since the larger side must exceed it strictly (:192) |
| `ImbalanceRule.ReplayOrdersWellFormed` | nautilus_trader/examples/strategies/orderbook_imbalance_rust.py:200-224 | every order of a run is a FOK, non-post-only limit order on the loaded instrument |
| `ImbalanceRule.ReplayQuietWhileInflight` | nautilus_trader/examples/strategies/orderbook_imbalance_rust.py:196-197 | while orders are in flight at every update, nothing is sent |
| `ImbalanceStrategy.OrderBookImbalance.constructor` | nautilus_trader/examples/strategies/orderbook_imbalance_rust.py:98-117 | only an accepted configuration constructs; no instrument, no trigger time, empty book, book type from the configuration |
| `ImbalanceStrategy.OrderBookImbalance.OnStart` | nautilus_trader/examples/strategies/orderbook_imbalance_rust.py:119-141 | instrument missing from the cache: stop requested, nothing subscribed, timestamp unchanged; otherwise subscribes to quote ticks or to book deltas at the configured book type, and sets the timestamp to now |
| `ImbalanceStrategy.OrderBookImbalance.CheckTrigger` | nautilus_trader/examples/strategies/orderbook_imbalance_rust.py:166-224 | outcome is `Decide` on the current state; at most one order submitted; timestamp set to now exactly when an order is sent, otherwise unchanged |
| `ImbalanceStrategy.OrderBookImbalance.OnOrderBookDeltas` | nautilus_trader/examples/strategies/orderbook_imbalance_rust.py:143-149 | book and indicator take the updated values, then one trigger check on them |
| `ImbalanceStrategy.OrderBookImbalance.OnQuoteTick` | nautilus_trader/examples/strategies/orderbook_imbalance_rust.py:151-158 | updates the book and checks the trigger exactly when quote ticks are configured; otherwise nothing changes |
| `ImbalanceStrategy.OrderBookImbalance.OnOrderBook` | nautilus_trader/examples/strategies/orderbook_imbalance_rust.py:160-164 | one trigger check on the current book |
| `ImbalanceStrategy.OrderBookImbalance.OnStop` | nautilus_trader/examples/strategies/orderbook_imbalance_rust.py:226-234 | keeps `Valid()`; records nothing without an instrument; otherwise records cancel all orders, then close all positions, on that instrument, and changes nothing else |
| `ImbalanceStrategy.DeliverDeltas` | nautilus_trader/examples/strategies/orderbook_imbalance_rust.py:143-224 | successive book-delta handler calls on a started strategy submit exactly `Replay`'s orders, in order, and leave the last trigger time at `Replay`'s; the book and indicator end at the last update's values, and nothing outside book, indicator, trigger time and submitted orders changes |

## Left out

- ImbalanceRule.Decide: treats a zero best size like a missing one ("no market").
  The source applies `not` to a foreign `Quantity` value, and whether a zero quantity
  is falsy depends on that type, which is not part of this model. If it is truthy,
  the source goes on with a zero size, and can then send an order for quantity 0 on
  the zero side where the model reports "no market": a BUY when the ask size is zero
  (:205), a SELL when the bid size is zero (:218).
- ImbalanceRule.Decide: the order quantity is the whole size of the level taken, as
  the code computes it. The configuration documents `max_trade_size` as the maximum
  size per trade, but the code stores it and never reads it. The model follows the
  code and does not cap the quantity; `OrderQuantityIgnoresMaxTradeSize` shows an
  order larger than `max_trade_size`.

- The order book and the imbalance indicator are foreign code, so the model does not
  compute them. Applying deltas, updating the book from a quote tick, and the
  indicator's `handle_book` become inputs: the best levels after the update and the
  indicator's value. The indicator is assumed to start at 0.0.
- `book_type_from_str` is a foreign parser. It is modelled as an exact match of the
  three names; case handling is not modelled.
- `instrument.make_price` / `make_qty` round to the instrument's precision. The model
  records the book's price and size unrounded.
- `CheckTrigger`: the source reads the clock twice, once for the elapsed time and once
  for the new timestamp. The model uses one reading `now` for both.
- `as_double()` and `total_seconds()` are floating point. The model uses exact reals
  and integer nanoseconds: no rounding, no NaN.
- The config types `PositiveFloat` / `NonNegativeFloat` are checked by the
  configuration library, not by the strategy. They are not part of `CheckConfig`.
- Logging is left out. `stop()`, `subscribe_*`, `submit_order`, `cancel_all_orders`
  and `close_all_positions` are recorded, not performed, and the strategy's lifecycle
  states are not modelled. `subscribe_ticker` is stored and used nowhere.
- `tests/unit_tests/data/test_data_client.py` and
  `nautilus_core/infrastructure/src/python/redis/msgbus.rs` are not part of this
  model: they test and bind the data client and the message bus, and neither
  involves this strategy.
