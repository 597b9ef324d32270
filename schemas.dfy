/** The records shared by the pipeline: a book depth snapshot with its derived
    prices, and the feature vector, signal and evaluation records passed between
    the engines. */
module Schemas {
  import opened Wrappers

  /** One row [price, size] of a book side. */
  datatype Level = Level(price: real, qty: real)

  /** The kind of a signal. The source stores it as one of two strings,
      "BUY_PRESSURE" or "SELL_PRESSURE"; here the two values are the only ones. */
  datatype SignalKind = BuyPressure | SellPressure

  /** A point-in-time view of the book: bids best (highest) first, asks best
      (lowest) first. */
  datatype BookSnapshot = BookSnapshot(ts: real, bids: seq<Level>, asks: seq<Level>)
  {
    /** Price of the first bid level; undefined (NaN in the source) for an empty side. */
    function BestBid(): (r: Option<real>)
      ensures r.Some? <==> |bids| > 0
      ensures r.Some? ==> r.value == bids[0].price
    {
      if |bids| > 0 then Some(bids[0].price) else None
    }

    /** Price of the first ask level; undefined for an empty side. */
    function BestAsk(): (r: Option<real>)
      ensures r.Some? <==> |asks| > 0
      ensures r.Some? ==> r.value == asks[0].price
    {
      if |asks| > 0 then Some(asks[0].price) else None
    }

    /** Midpoint of the best prices, defined exactly when both sides have a level. */
    function Mid(): (r: Option<real>)
      ensures r.Some? <==> BestBid().Some? && BestAsk().Some?
      ensures r.Some? ==> r.value - BestBid().value == BestAsk().value - r.value
    {
      match (BestBid(), BestAsk())
      case (Some(bb), Some(ba)) => Some((bb + ba) / 2.0)
      case _ => None
    }

    /** The data-model invariant a well-formed snapshot meets (it is not checked
        by the source): positive prices, non-negative sizes, bids descending,
        asks ascending. */
    predicate WellFormed()
    {
      SideWellFormed(bids) && SideWellFormed(asks) &&
      (forall i :: 0 < i < |bids| ==> bids[i].price < bids[i - 1].price) &&
      (forall i :: 0 < i < |asks| ==> asks[i - 1].price < asks[i].price)
    }
  }

  predicate SideWellFormed(levels: seq<Level>)
  {
    forall i :: 0 <= i < |levels| ==> levels[i].price > 0.0 && levels[i].qty >= 0.0
  }

  /** The mid, when defined, lies between the two best prices (in either order,
      since a crossed book is not excluded). */
  lemma MidBetweenBestPrices(snap: BookSnapshot)
    requires snap.Mid().Some?
    ensures var bb, ba, m := snap.BestBid().value, snap.BestAsk().value, snap.Mid().value;
      (bb <= m <= ba) || (ba <= m <= bb)
  {
  }

  /** On a well-formed book the mid is a positive price. */
  lemma MidOfWellFormedIsPositive(snap: BookSnapshot)
    requires snap.WellFormed() && snap.Mid().Some?
    ensures snap.Mid().value > 0.0
  {
  }

  /** The features computed from one snapshot; `ts` is the snapshot's. */
  datatype FeatureVector = FeatureVector(ts: real, imbalance: real, bidSlope: real, askSlope: real, updateRate: real)

  /** A directional signal emitted by the detector. */
  datatype Signal = Signal(ts: real, kind: SignalKind, strength: real)

  /** A closed hypothetical trade: exit time, signal kind, entry and exit mids, pnl in ticks. */
  datatype Evaluation = Evaluation(ts: real, signalKind: SignalKind, entryMid: real, exitMid: real, pnlTicks: real)
}
