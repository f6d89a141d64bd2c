/**
 The trigger rule of the order-book imbalance example strategy, as pure values and
 functions: the configuration check done at construction, the decision taken by one
 trigger check, and the sequence of orders sent over a run of market updates.

 Prices, sizes and the imbalance ratio are reals (the strategy only compares them and
 takes a maximum). Clock readings are integers in nanoseconds; the configured minimum
 interval between triggers is in seconds, as in the configuration.
 */
module ImbalanceRule {

  datatype Option<+T> = None | Some(value: T)

  datatype Result<+T, +E> = Ok(value: T) | Err(error: E)

  /** Order-book granularity: top of book only, aggregated price levels, or per order. */
  datatype BookType = L1_MBP | L2_MBP | L3_MBO

  datatype OrderSide = Buy | Sell

  /** The strategy only ever sends fill-or-kill orders. */
  datatype TimeInForce = FOK

  /** The instrument loaded from the cache; only its identifier is used by the strategy. */
  datatype Instrument = Instrument(id: string)

  /** Best price and the size available at it, on one side of the book. */
  datatype Level = Level(price: real, size: real)

  /** What the strategy reads from its order book: the best level on each side, if any. */
  datatype BookTop = BookTop(bid: Option<Level>, ask: Option<Level>)

  const EmptyBook: BookTop := BookTop(None, None)

  datatype LimitOrder = LimitOrder(
    instrumentId: string,
    side: OrderSide,
    price: real,
    quantity: real,
    postOnly: bool,
    timeInForce: TimeInForce)

  /** The result of one trigger check: the reason nothing was sent, or the one order sent. */
  datatype TriggerOutcome =
    | NoInstrument
    | NoMarket
    | NotTriggered
    | SkipInflight
    | SkipTooSoon
    | Order(order: LimitOrder)

  datatype Config = Config(
    instrumentId: string,
    maxTradeSize: real,
    triggerMinSize: real,
    triggerImbalanceRatio: real,
    minSecondsBetweenTriggers: real,
    bookType: string,
    useQuoteTicks: bool,
    subscribeTicker: bool)

  /** The configuration with every field that has a default left at its default. */
  function DefaultConfig(instrumentId: string, maxTradeSize: real): (c: Config)
    ensures CheckConfig(c) == Ok(L2_MBP)
    ensures c.instrumentId == instrumentId && c.maxTradeSize == maxTradeSize
  {
    Config(instrumentId, maxTradeSize, 100.0, 0.20, 1.0, "L2_MBP", false, false)
  }

  datatype ConfigError =
    | ImbalanceRatioOutOfRange  // the ratio must lie strictly between 0 and 1
    | QuoteTicksRequireL1       // quote ticks can only feed a top-of-book book
    | UnknownBookType           // the book type name does not parse

  function BookTypeName(b: BookType): string
  {
    match b
    case L1_MBP => "L1_MBP"
    case L2_MBP => "L2_MBP"
    case L3_MBO => "L3_MBO"
  }

  function BookTypeFromStr(s: string): (r: Option<BookType>)
    ensures r.Some? <==> s in {"L1_MBP", "L2_MBP", "L3_MBO"}
    // parsing inverts naming, in both directions
    ensures forall b :: r == Some(b) <==> BookTypeName(b) == s
  {
    if s == "L1_MBP" then Some(L1_MBP)
    else if s == "L2_MBP" then Some(L2_MBP)
    else if s == "L3_MBO" then Some(L3_MBO)
    else None
  }

  /**
   The checks made when the strategy is constructed, in the order it makes them.
   On success the result is the book type the strategy starts with.
   */
  function CheckConfig(c: Config): (r: Result<BookType, ConfigError>)
    ensures r.Ok? <==>
      && 0.0 < c.triggerImbalanceRatio < 1.0
      && (c.useQuoteTicks ==> c.bookType == "L1_MBP")
      && BookTypeFromStr(c.bookType).Some?
    ensures r.Ok? ==> BookTypeName(r.value) == c.bookType
    ensures r.Ok? && c.useQuoteTicks ==> r.value == L1_MBP
    ensures !(0.0 < c.triggerImbalanceRatio < 1.0) ==> r == Err(ImbalanceRatioOutOfRange)
    ensures 0.0 < c.triggerImbalanceRatio < 1.0 && c.useQuoteTicks && c.bookType != "L1_MBP"
            ==> r == Err(QuoteTicksRequireL1)
    ensures && 0.0 < c.triggerImbalanceRatio < 1.0
            && !(c.useQuoteTicks && c.bookType != "L1_MBP")
            && BookTypeFromStr(c.bookType).None?
            ==> r == Err(UnknownBookType)
  {
    if !(0.0 < c.triggerImbalanceRatio < 1.0) then Err(ImbalanceRatioOutOfRange)
    else if c.useQuoteTicks && c.bookType != "L1_MBP" then Err(QuoteTicksRequireL1)
    else match BookTypeFromStr(c.bookType)
      case Some(b) => Ok(b)
      case None => Err(UnknownBookType)
  }

  function Max(a: real, b: real): real
  {
    if a >= b then a else b
  }

  function Min(a: real, b: real): real
  {
    if a <= b then a else b
  }

  /** A best size that is missing, or a zero quantity, counts as "no market". */
  predicate HasSize(l: Option<Level>)
  {
    l.Some? && l.value.size != 0.0
  }

  predicate HasMarket(top: BookTop)
  {
    HasSize(top.bid) && HasSize(top.ask)
  }

  /** Trigger condition on a two-sided market: enough size on the larger side, and an
      imbalance ratio strictly below the configured one. */
  predicate Imbalanced(c: Config, top: BookTop, ratio: real)
    requires HasMarket(top)
  {
    Max(top.bid.value.size, top.ask.value.size) > c.triggerMinSize
    && ratio < c.triggerImbalanceRatio
  }

  const NanosPerSecond: real := 1_000_000_000.0

  /** Seconds elapsed between two clock readings in nanoseconds. */
  function ElapsedSeconds(from: int, to: int): real
  {
    (to - from) as real / NanosPerSecond
  }

  /**
   One trigger check. `instrument` is the loaded instrument, `top` the best levels of
   the book, `ratio` the imbalance indicator's value, `inflight` the number of this
   strategy's orders in flight, `last` the last trigger time and `now` the clock.
   */
  function Decide(c: Config, instrument: Option<Instrument>, top: BookTop, ratio: real,
                  inflight: nat, last: Option<int>, now: int): (r: TriggerOutcome)
    requires instrument.Some? ==> last.Some?
    ensures r == NoInstrument <==> instrument.None?
    ensures r == NoMarket <==> instrument.Some? && !HasMarket(top)
    ensures r == NotTriggered <==>
      instrument.Some? && HasMarket(top) && !Imbalanced(c, top, ratio)
    // in-flight orders suppress the order whatever the time since the last trigger
    ensures r == SkipInflight <==>
      instrument.Some? && HasMarket(top) && Imbalanced(c, top, ratio) && inflight > 0
    ensures r == SkipTooSoon <==>
      && instrument.Some? && HasMarket(top) && Imbalanced(c, top, ratio) && inflight == 0
      && ElapsedSeconds(last.value, now) < c.minSecondsBetweenTriggers
    ensures r.Order? <==>
      && instrument.Some? && HasMarket(top) && Imbalanced(c, top, ratio) && inflight == 0
      && ElapsedSeconds(last.value, now) >= c.minSecondsBetweenTriggers
    ensures r.Order? ==>
      && r.order.instrumentId == instrument.value.id
      && r.order.timeInForce == FOK && !r.order.postOnly
      // the order takes the whole of the thinner side; ties sell into the bid
      && r.order.quantity == Min(top.bid.value.size, top.ask.value.size)
      && (r.order.side == Buy <==> top.bid.value.size > top.ask.value.size)
      && r.order.price == (if r.order.side == Buy then top.ask.value.price else top.bid.value.price)
  {
    if instrument.None? then NoInstrument
    else if !HasSize(top.bid) || !HasSize(top.ask) then NoMarket
    else
      var bid, ask := top.bid.value, top.ask.value;
      if !(Max(bid.size, ask.size) > c.triggerMinSize && ratio < c.triggerImbalanceRatio) then
        NotTriggered
      else if inflight > 0 then SkipInflight
      else if ElapsedSeconds(last.value, now) < c.minSecondsBetweenTriggers then SkipTooSoon
      else if bid.size > ask.size then
        Order(LimitOrder(instrument.value.id, Buy, ask.price, ask.size, false, FOK))
      else
        Order(LimitOrder(instrument.value.id, Sell, bid.price, bid.size, false, FOK))
  }

  /** What one market update hands to a trigger check. */
  datatype MarketUpdate = MarketUpdate(top: BookTop, ratio: real, inflight: nat, now: int)

  /** An order together with the clock reading at which it was sent. */
  datatype Sent = Sent(at: int, order: LimitOrder)

  /**
   The orders sent by successive trigger checks on a loaded instrument, starting from
   last trigger time `last`; each order moves the last trigger time to its own time.
   */
  function Replay(c: Config, inst: Instrument, last: int, updates: seq<MarketUpdate>): (sent: seq<Sent>)
    ensures |sent| <= |updates|
    decreases |updates|
  {
    if updates == [] then []
    else
      var u := updates[0];
      var d := Decide(c, Some(inst), u.top, u.ratio, u.inflight, Some(last), u.now);
      if d.Order? then [Sent(u.now, d.order)] + Replay(c, inst, u.now, updates[1..])
      else Replay(c, inst, last, updates[1..])
  }

  /** The last trigger time after a run: that of its last order, or `last` if none. */
  function LastTriggerAfter(last: int, sent: seq<Sent>): int
  {
    if sent == [] then last else sent[|sent| - 1].at
  }

  /** The orders of a run, without their send times. */
  function Orders(sent: seq<Sent>): seq<LimitOrder>
  {
    seq(|sent|, i requires 0 <= i < |sent| => sent[i].order)
  }

  /** One more update extends a run by the outcome of one trigger check made with the
      run's last trigger time: this is what calling the strategy once more does. */
  lemma {:induction false} ReplaySnoc(c: Config, inst: Instrument, last: int,
                                      updates: seq<MarketUpdate>, u: MarketUpdate)
    ensures var before := Replay(c, inst, last, updates);
      var d := Decide(c, Some(inst), u.top, u.ratio, u.inflight,
                      Some(LastTriggerAfter(last, before)), u.now);
      Replay(c, inst, last, updates + [u]) ==
        before + (if d.Order? then [Sent(u.now, d.order)] else [])
    decreases |updates|
  {
    if updates == [] {
      assert updates + [u] == [u];
      assert [u][1..] == [];
    } else {
      var v := updates[0];
      assert (updates + [u])[0] == v;
      assert (updates + [u])[1..] == updates[1..] + [u];
      var dv := Decide(c, Some(inst), v.top, v.ratio, v.inflight, Some(last), v.now);
      if dv.Order? {
        ReplaySnoc(c, inst, v.now, updates[1..], u);
        var rest := Replay(c, inst, v.now, updates[1..]);
        assert LastTriggerAfter(last, [Sent(v.now, dv.order)] + rest) == LastTriggerAfter(v.now, rest);
      } else {
        ReplaySnoc(c, inst, last, updates[1..], u);
      }
    }
  }

  /** `ReplaySnoc` on prefixes of one sequence of updates, with what it means for the
      orders and the last trigger time. */
  lemma ReplayPrefixStep(c: Config, inst: Instrument, last: int, updates: seq<MarketUpdate>, i: nat)
    requires i < |updates|
    ensures var before := Replay(c, inst, last, updates[..i]);
      var u := updates[i];
      var d := Decide(c, Some(inst), u.top, u.ratio, u.inflight,
                      Some(LastTriggerAfter(last, before)), u.now);
      var after := Replay(c, inst, last, updates[..i + 1]);
      && Orders(after) == Orders(before) + (if d.Order? then [d.order] else [])
      && LastTriggerAfter(last, after) == (if d.Order? then u.now else LastTriggerAfter(last, before))
  {
    var before := Replay(c, inst, last, updates[..i]);
    var u := updates[i];
    assert updates[..i + 1] == updates[..i] + [u];
    ReplaySnoc(c, inst, last, updates[..i], u);
    var d := Decide(c, Some(inst), u.top, u.ratio, u.inflight,
                    Some(LastTriggerAfter(last, before)), u.now);
    if d.Order? {
      assert Orders(before + [Sent(u.now, d.order)]) == Orders(before) + [d.order];
    }
  }

  /** Throttling: every order is sent at least the minimum interval after the previous
      one, and the first at least that long after the starting trigger time. */
  lemma {:induction false} ReplaySpacing(c: Config, inst: Instrument, last: int, updates: seq<MarketUpdate>)
    ensures var sent := Replay(c, inst, last, updates);
      && (sent != [] ==> ElapsedSeconds(last, sent[0].at) >= c.minSecondsBetweenTriggers)
      && forall i :: 0 <= i < |sent| - 1 ==>
           ElapsedSeconds(sent[i].at, sent[i + 1].at) >= c.minSecondsBetweenTriggers
    decreases |updates|
  {
    if updates != [] {
      var u := updates[0];
      var d := Decide(c, Some(inst), u.top, u.ratio, u.inflight, Some(last), u.now);
      if d.Order? {
        ReplaySpacing(c, inst, u.now, updates[1..]);
        var rest := Replay(c, inst, u.now, updates[1..]);
        var sent := [Sent(u.now, d.order)] + rest;
        assert Replay(c, inst, last, updates) == sent;
        forall i | 0 <= i < |sent| - 1
          ensures ElapsedSeconds(sent[i].at, sent[i + 1].at) >= c.minSecondsBetweenTriggers
        {
          if i > 0 {
            assert sent[i] == rest[i - 1] && sent[i + 1] == rest[i];
          }
        }
      } else {
        ReplaySpacing(c, inst, last, updates[1..]);
      }
    }
  }

  /** `n` minimum intervals of `m` seconds laid end to end, added up one at a time. */
  function Intervals(n: nat, m: real): real
  {
    if n == 0 then 0.0 else Intervals(n - 1, m) + m
  }

  lemma {:induction false} IntervalsIsProduct(n: nat, m: real)
    ensures Intervals(n, m) == n as real * m
  {
    if n > 0 {
      IntervalsIsProduct(n - 1, m);
      assert n as real * m == (n - 1) as real * m + m;
    }
  }

  /** Rate bound: over updates read no later than `horizon`, the minimum intervals the
      orders sent need, one per order (`Intervals`, which is their number times the
      interval by `IntervalsIsProduct`), fit in the time elapsed since `last`. */
  lemma {:induction false} ReplayRateBound(c: Config, inst: Instrument, last: int,
                                              updates: seq<MarketUpdate>, horizon: int)
    requires forall k :: 0 <= k < |updates| ==> updates[k].now <= horizon
    ensures var sent := Replay(c, inst, last, updates);
      sent != [] ==> Intervals(|sent|, c.minSecondsBetweenTriggers) <= ElapsedSeconds(last, horizon)
    decreases |updates|
  {
    if updates != [] {
      var u, tail := updates[0], updates[1..];
      assert forall k :: 0 <= k < |tail| ==> tail[k].now <= horizon by {
        forall k | 0 <= k < |tail| ensures tail[k].now <= horizon {
          assert tail[k] == updates[k + 1];
        }
      }
      var d := Decide(c, Some(inst), u.top, u.ratio, u.inflight, Some(last), u.now);
      if d.Order? {
        ReplayRateBound(c, inst, u.now, tail, horizon);
        var rest := Replay(c, inst, u.now, tail);
        assert Replay(c, inst, last, updates) == [Sent(u.now, d.order)] + rest;
        ElapsedAdds(last, u.now, horizon);
        assert u.now <= horizon;
      } else {
        ReplayRateBound(c, inst, last, tail, horizon);
        assert Replay(c, inst, last, updates) == Replay(c, inst, last, tail);
      }
    }
  }

  /** The rate bound as a count: the number of orders sent times the minimum interval
      fits in the time elapsed since `last`. */
  lemma ReplayOrderCountBound(c: Config, inst: Instrument, last: int,
                              updates: seq<MarketUpdate>, horizon: int)
    requires forall k :: 0 <= k < |updates| ==> updates[k].now <= horizon
    ensures var sent := Replay(c, inst, last, updates);
      sent != [] ==> |sent| as real * c.minSecondsBetweenTriggers <= ElapsedSeconds(last, horizon)
  {
    var sent := Replay(c, inst, last, updates);
    ReplayRateBound(c, inst, last, updates, horizon);
    IntervalsIsProduct(|sent|, c.minSecondsBetweenTriggers);
  }

  lemma ElapsedAdds(a: int, b: int, t: int)
    ensures ElapsedSeconds(a, t) == ElapsedSeconds(a, b) + ElapsedSeconds(b, t)
    ensures b <= t ==> ElapsedSeconds(b, t) >= 0.0
  {
  }

  /** Sizes are never capped: with the default configuration and a maximum trade size
      of 1, an order for 50 is sent. */
  lemma OrderQuantityIgnoresMaxTradeSize()
    ensures var c := DefaultConfig("X", 1.0);
      var r := Decide(c, Some(Instrument("X")),
                      BookTop(Some(Level(10.0, 500.0)), Some(Level(11.0, 50.0))),
                      0.1, 0, Some(0), 2_000_000_000);
      r.Order? && r.order.quantity == 50.0 && r.order.quantity > c.maxTradeSize
  {
  }

  /** With two positive best sizes and the indicator reading smaller over larger size,
      the trigger condition is: more than the minimum size on the larger side, and the
      smaller side below the configured ratio of the larger. */
  lemma ImbalancedBySizes(c: Config, top: BookTop, ratio: real)
    requires HasMarket(top) && top.bid.value.size > 0.0 && top.ask.value.size > 0.0
    requires ratio == Min(top.bid.value.size, top.ask.value.size) / Max(top.bid.value.size, top.ask.value.size)
    ensures var larger, smaller := Max(top.bid.value.size, top.ask.value.size),
                                   Min(top.bid.value.size, top.ask.value.size);
      Imbalanced(c, top, ratio) <==>
        larger > c.triggerMinSize && smaller < c.triggerImbalanceRatio * larger
  {
  }

  /** The configuration's documented example (ratio 0.2, a bid of 100, an ask below 20)
      sends nothing under the default minimum size of 100: the larger side must exceed
      the minimum size strictly. */
  lemma DocumentedExampleNotTriggered()
    ensures Decide(DefaultConfig("X", 1.0), Some(Instrument("X")),
                   BookTop(Some(Level(10.0, 100.0)), Some(Level(11.0, 19.0))),
                   0.19, 0, Some(0), 2_000_000_000) == NotTriggered
  {
  }

  /** Every order of a run is a fill-or-kill, non-post-only limit order on the loaded
      instrument. */
  lemma {:induction false} ReplayOrdersWellFormed(c: Config, inst: Instrument, last: int, updates: seq<MarketUpdate>)
    ensures forall s :: s in Replay(c, inst, last, updates) ==>
      s.order.instrumentId == inst.id && s.order.timeInForce == FOK && !s.order.postOnly
    decreases |updates|
  {
    if updates != [] {
      var u := updates[0];
      var d := Decide(c, Some(inst), u.top, u.ratio, u.inflight, Some(last), u.now);
      if d.Order? {
        ReplayOrdersWellFormed(c, inst, u.now, updates[1..]);
      } else {
        ReplayOrdersWellFormed(c, inst, last, updates[1..]);
      }
    }
  }

  /** While this strategy has orders in flight at every update, a run sends nothing. */
  lemma {:induction false} ReplayQuietWhileInflight(c: Config, inst: Instrument, last: int, updates: seq<MarketUpdate>)
    requires forall k :: 0 <= k < |updates| ==> updates[k].inflight > 0
    ensures Replay(c, inst, last, updates) == []
    decreases |updates|
  {
    if updates != [] {
      ReplayQuietWhileInflight(c, inst, last, updates[1..]);
    }
  }
}
