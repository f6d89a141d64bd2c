/**
 The order-book imbalance example strategy as an object: its configuration, the
 instrument and book type set on start, the book and imbalance indicator it reads,
 and the last trigger time that each trigger check reads and may move.

 Calls into the framework are recorded instead of performed: the subscriptions made
 on start, the orders submitted, whether the strategy asked to be stopped, and the
 actions taken on stop.
 The cache, the clock, the number of in-flight orders, the book after an update and
 the indicator's value are inputs.
 */
module ImbalanceStrategy {
  import opened ImbalanceRule

  datatype Subscription =
    | QuoteTicks(instrumentId: string)
    | OrderBookDeltas(instrumentId: string, bookType: BookType)

  datatype StopAction =
    | CancelAllOrders(instrumentId: string)
    | CloseAllPositions(instrumentId: string)

  class OrderBookImbalance {
    const config: Config
    var instrument: Option<Instrument>
    var lastTriggerTimestamp: Option<int>
    var bookType: BookType
    var book: BookTop
    var imbalance: real
    // recorded calls into the framework
    var submitted: seq<LimitOrder>
    var subscriptions: seq<Subscription>
    var stopRequested: bool
    var stopActions: seq<StopAction>

    /** The configuration passed the construction checks, the book type is always the
        configured one, and a loaded instrument always comes with a trigger time. */
    ghost predicate Valid()
      reads this
    {
      && CheckConfig(config).Ok?
      && bookType == CheckConfig(config).value
      && (instrument.Some? ==> lastTriggerTimestamp.Some?)
    }

    constructor (config: Config)
      requires CheckConfig(config).Ok?
      ensures Valid()
      ensures this.config == config && bookType == CheckConfig(config).value
      ensures instrument == None && lastTriggerTimestamp == None
      ensures book == EmptyBook && imbalance == 0.0
      ensures submitted == [] && subscriptions == [] && !stopRequested && stopActions == []
    {
      this.config := config;
      lastTriggerTimestamp := None;
      instrument := None;
      bookType := CheckConfig(config).value;
      book := EmptyBook;
      imbalance := 0.0;
      submitted := [];
      subscriptions := [];
      stopRequested := false;
      stopActions := [];
    }

    /** Loads the instrument from `cache`; without it the strategy asks to stop and
        subscribes to nothing. `now` is the clock reading. */
    method OnStart(cache: map<string, Instrument>, now: int)
      requires Valid()
      modifies this`instrument, this`bookType, this`lastTriggerTimestamp,
               this`subscriptions, this`stopRequested
      ensures Valid()
      ensures instrument == (if config.instrumentId in cache then Some(cache[config.instrumentId]) else None)
      ensures bookType == old(bookType)
      ensures instrument.None? ==>
        && stopRequested
        && lastTriggerTimestamp == old(lastTriggerTimestamp)
        && subscriptions == old(subscriptions)
      ensures instrument.Some? ==>
        && stopRequested == old(stopRequested)
        && lastTriggerTimestamp == Some(now)
        && subscriptions == old(subscriptions) +
             [if config.useQuoteTicks then QuoteTicks(instrument.value.id)
              else OrderBookDeltas(instrument.value.id, bookType)]
    {
      instrument := if config.instrumentId in cache then Some(cache[config.instrumentId]) else None;
      if instrument.None? {
        stopRequested := true;
        return;
      }
      if config.useQuoteTicks {
        bookType := L1_MBP;
        subscriptions := subscriptions + [QuoteTicks(instrument.value.id)];
      } else {
        bookType := BookTypeFromStr(config.bookType).value;
        subscriptions := subscriptions + [OrderBookDeltas(instrument.value.id, bookType)];
      }
      lastTriggerTimestamp := Some(now);
    }

    /** One trigger check: sends at most one order, and moves the last trigger time to
        `now` exactly when it sends one. */
    method CheckTrigger(inflight: nat, now: int) returns (outcome: TriggerOutcome)
      requires Valid()
      modifies this`lastTriggerTimestamp, this`submitted
      ensures Valid()
      ensures outcome == Decide(config, instrument, book, imbalance, inflight, old(lastTriggerTimestamp), now)
      ensures lastTriggerTimestamp == if outcome.Order? then Some(now) else old(lastTriggerTimestamp)
      ensures submitted == if outcome.Order? then old(submitted) + [outcome.order] else old(submitted)
    {
      if instrument.None? {
        return NoInstrument;
      }
      if !HasSize(book.bid) || !HasSize(book.ask) {
        return NoMarket;
      }
      var bid, ask := book.bid.value, book.ask.value;
      var larger := Max(bid.size, ask.size);
      var ratio := imbalance;
      var secondsSinceLastTrigger := ElapsedSeconds(lastTriggerTimestamp.value, now);
      if larger > config.triggerMinSize && ratio < config.triggerImbalanceRatio {
        if inflight > 0 {
          outcome := SkipInflight;
        } else if secondsSinceLastTrigger < config.minSecondsBetweenTriggers {
          outcome := SkipTooSoon;
        } else if bid.size > ask.size {
          var order := LimitOrder(instrument.value.id, Buy, ask.price, ask.size, false, FOK);
          lastTriggerTimestamp := Some(now);
          submitted := submitted + [order];
          outcome := Order(order);
        } else {
          var order := LimitOrder(instrument.value.id, Sell, bid.price, bid.size, false, FOK);
          lastTriggerTimestamp := Some(now);
          submitted := submitted + [order];
          outcome := Order(order);
        }
      } else {
        outcome := NotTriggered;
      }
    }

    /** Book deltas received: `top` is the book after applying them and `ratio` the
        indicator's value on that book; then a trigger check. */
    method OnOrderBookDeltas(top: BookTop, ratio: real, inflight: nat, now: int)
      returns (outcome: TriggerOutcome)
      requires Valid()
      modifies this`book, this`imbalance, this`lastTriggerTimestamp, this`submitted
      ensures Valid()
      ensures book == top && imbalance == ratio
      ensures outcome == Decide(config, instrument, top, ratio, inflight, old(lastTriggerTimestamp), now)
      ensures lastTriggerTimestamp == if outcome.Order? then Some(now) else old(lastTriggerTimestamp)
      ensures submitted == if outcome.Order? then old(submitted) + [outcome.order] else old(submitted)
    {
      book := top;
      imbalance := ratio;
      outcome := CheckTrigger(inflight, now);
    }

    /** Quote tick received: only when quote ticks are configured is the book updated
        (to `top`, with indicator value `ratio`) and the trigger checked. */
    method OnQuoteTick(top: BookTop, ratio: real, inflight: nat, now: int)
      returns (checked: Option<TriggerOutcome>)
      requires Valid()
      modifies this`book, this`imbalance, this`lastTriggerTimestamp, this`submitted
      ensures Valid()
      ensures checked.Some? <==> config.useQuoteTicks
      ensures !config.useQuoteTicks ==>
        && book == old(book) && imbalance == old(imbalance)
        && lastTriggerTimestamp == old(lastTriggerTimestamp) && submitted == old(submitted)
      ensures config.useQuoteTicks ==>
        && book == top && imbalance == ratio
        && checked.value == Decide(config, instrument, top, ratio, inflight, old(lastTriggerTimestamp), now)
        && lastTriggerTimestamp == (if checked.value.Order? then Some(now) else old(lastTriggerTimestamp))
        && submitted == (if checked.value.Order? then old(submitted) + [checked.value.order] else old(submitted))
    {
      if config.useQuoteTicks {
        book := top;
        imbalance := ratio;
        var outcome := CheckTrigger(inflight, now);
        checked := Some(outcome);
      } else {
        checked := None;
      }
    }

    /** Whole-book update received: a trigger check on the current book. */
    method OnOrderBook(inflight: nat, now: int) returns (outcome: TriggerOutcome)
      requires Valid()
      modifies this`lastTriggerTimestamp, this`submitted
      ensures Valid()
      ensures outcome == Decide(config, instrument, book, imbalance, inflight, old(lastTriggerTimestamp), now)
      ensures lastTriggerTimestamp == if outcome.Order? then Some(now) else old(lastTriggerTimestamp)
      ensures submitted == if outcome.Order? then old(submitted) + [outcome.order] else old(submitted)
    {
      outcome := CheckTrigger(inflight, now);
    }

    /** On stop, with an instrument loaded: cancel its orders, then close its positions. */
    method OnStop()
      requires Valid()
      modifies this`stopActions
      ensures Valid()
      ensures instrument.None? ==> stopActions == old(stopActions)
      ensures instrument.Some? ==>
        stopActions == old(stopActions) +
          [CancelAllOrders(instrument.value.id), CloseAllPositions(instrument.value.id)]
    {
      if instrument.None? {
        return;
      }
      stopActions := stopActions + [CancelAllOrders(instrument.value.id), CloseAllPositions(instrument.value.id)];
    }
  }

  /**
   Book-delta updates delivered one after another to a started strategy: the orders it
   submits and its last trigger time are those of `Replay` over the same updates, so
   the throttling lemmas about `Replay` hold of the strategy object.
   */
  method DeliverDeltas(s: OrderBookImbalance, updates: seq<MarketUpdate>)
    requires s.Valid() && s.instrument.Some?
    modifies s`book, s`imbalance, s`lastTriggerTimestamp, s`submitted
    ensures s.Valid() && s.instrument == old(s.instrument)
    // after the last update the book and the indicator hold its values
    ensures updates != [] ==>
      s.book == updates[|updates| - 1].top && s.imbalance == updates[|updates| - 1].ratio
    ensures var sent := Replay(s.config, s.instrument.value, old(s.lastTriggerTimestamp.value), updates);
      && s.submitted == old(s.submitted) + Orders(sent)
      && s.lastTriggerTimestamp == Some(LastTriggerAfter(old(s.lastTriggerTimestamp.value), sent))
  {
    var inst, l0, sub0 := s.instrument.value, s.lastTriggerTimestamp.value, s.submitted;
    var i := 0;
    while i < |updates|
      invariant 0 <= i <= |updates|
      invariant s.Valid() && s.instrument == Some(inst)
      invariant i > 0 ==> s.book == updates[i - 1].top && s.imbalance == updates[i - 1].ratio
      invariant s.submitted == sub0 + Orders(Replay(s.config, inst, l0, updates[..i]))
      invariant s.lastTriggerTimestamp == Some(LastTriggerAfter(l0, Replay(s.config, inst, l0, updates[..i])))
    {
      var u := updates[i];
      ReplayPrefixStep(s.config, inst, l0, updates, i);
      var outcome := s.OnOrderBookDeltas(u.top, u.ratio, u.inflight, u.now);
      i := i + 1;
    }
    assert updates[..|updates|] == updates;
  }
}
