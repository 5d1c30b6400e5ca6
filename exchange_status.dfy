/**
 * The exchange cards: latency bands, the top-of-book summary and the
 * three-level depth view of each order book.
 */
module ExchangeStatus {
  import opened Wrappers
  import opened Types
  import opened LiveData

  /** The three latency bands; the text and background helpers colour them green, yellow and red. */
  datatype LatencyBand = Good | Fair | Poor {
    function Rank(): nat {
      match this
      case Good => 0
      case Fair => 1
      case Poor => 2
    }
  }

  /** `getLatencyColor(latency)`. */
  function LatencyColor(latency: real): (b: LatencyBand)
    ensures b.Good? <==> latency < 20.0
    ensures b.Fair? <==> 20.0 <= latency < 50.0
    ensures b.Poor? <==> latency >= 50.0
  {
    if latency < 20.0 then Good else if latency < 50.0 then Fair else Poor
  }

  /** `getLatencyBg(latency)`, a separate if-chain over the same thresholds. */
  function LatencyBackground(latency: real): (b: LatencyBand)
    ensures b.Good? <==> latency < 20.0
    ensures b.Poor? <==> latency >= 50.0
  {
    if latency < 20.0 then Good else if latency < 50.0 then Fair else Poor
  }

  /** The text and the background of a card always show the same band. */
  lemma LatencyHelpersAgree(latency: real)
    ensures LatencyColor(latency) == LatencyBackground(latency)
  {
  }

  /** A slower exchange never gets a better band. */
  lemma LatencyBandMonotone(a: real, b: real)
    requires a <= b
    ensures LatencyColor(a).Rank() <= LatencyColor(b).Rank()
  {
  }

  /** `levels[0]?.[0] || 0`: the first level's price, 0 for an empty side. */
  function BestPrice(levels: seq<Level>): (p: real)
    ensures levels == [] ==> p == 0.0
    ensures levels != [] ==> p == levels[0].price
  {
    if levels == [] then 0.0 else levels[0].price
  }

  /** The top-of-book figures; the spread in basis points is absent where the source divides by a zero best bid. */
  datatype BookSummary = BookSummary(bestBid: real, bestAsk: real, spread: real, spreadBps: Option<real>)

  /** `formatOrderbook(orderbook)`. */
  function FormatOrderbook(book: Orderbook): (s: BookSummary)
    ensures s.bestBid == BestPrice(book.bids) && s.bestAsk == BestPrice(book.asks)
    ensures s.bestAsk == s.bestBid + s.spread
    ensures s.spreadBps.Some? <==> s.bestBid != 0.0
    ensures s.spreadBps.Some? ==> s.spreadBps.value * s.bestBid == s.spread * 10000.0
    ensures s.spreadBps.Some? && s.bestBid > 0.0 ==> (s.spreadBps.value >= 0.0 <==> s.bestAsk >= s.bestBid)
  {
    var bestBid := BestPrice(book.bids);
    var bestAsk := BestPrice(book.asks);
    var spread := bestAsk - bestBid;
    BookSummary(bestBid, bestAsk, spread, if bestBid == 0.0 then None else Some(spread / bestBid * 10000.0))
  }

  /** `levels.slice(0, 3)`: the depth view shows the first three levels in book order. */
  function DepthView(levels: seq<Level>): (r: seq<Level>)
    ensures |r| == Min(3, |levels|)
    ensures forall i :: 0 <= i < |r| ==> r[i] == levels[i]
  {
    levels[..Min(3, |levels|)]
  }

  /** Every generated book is ten wide at the top, so its spread in basis points is defined and positive. */
  lemma MockBooksSpreadTen(books: seq<BookDraws>, k: nat)
    requires ValidBookDraws(books) && k < 3
    ensures var s := FormatOrderbook(MockExchanges(books)[k].orderbook);
      s.spread == 10.0 && s.spreadBps.Some? && s.spreadBps.value > 0.0
  {
  }
}
