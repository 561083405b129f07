/**
 * The pure side of the odds API client: per-outcome aggregation of
 * bookmaker prices for one market of an event (average and best price), and
 * the client's own copies of the odds conversions.
 */
module OddsClient {
  import opened Wrappers
  import EdgeCalculator

  /** An outcome of a market; `point` is the line as `String(point)` renders it, when there is one. */
  datatype Outcome = Outcome(name: string, price: int, point: Option<string>)
  datatype Market = Market(key: string, outcomes: seq<Outcome>)
  datatype Bookmaker = Bookmaker(key: string, title: string, markets: seq<Market>)
  /** The part of an odds API event the aggregations read. */
  datatype Event = Event(bookmakers: seq<Bookmaker>)

  /** `outcome.point !== undefined ? `${outcome.name}_${outcome.point}` : outcome.name`. */
  function OutcomeKey(o: Outcome): (k: string)
    ensures o.point.None? ==> k == o.name
    ensures o.point.Some? ==> k == o.name + "_" + o.point.value
  {
    match o.point
    case None => o.name
    case Some(p) => o.name + "_" + p
  }

  /** `markets.find(m => m.key === market)`, as the index of the first match at or after `i`. */
  function FindMarketFrom(markets: seq<Market>, market: string, i: nat): (r: Option<nat>)
    requires i <= |markets|
    ensures r.Some? ==> i <= r.value < |markets| && markets[r.value].key == market
    ensures r.Some? ==> forall j :: i <= j < r.value ==> markets[j].key != market
    ensures r.None? <==> forall j :: i <= j < |markets| ==> markets[j].key != market
    decreases |markets| - i
  {
    if i == |markets| then None
    else if markets[i].key == market then Some(i)
    else FindMarketFrom(markets, market, i + 1)
  }

  function FindMarket(markets: seq<Market>, market: string): Option<nat> {
    FindMarketFrom(markets, market, 0)
  }

  // ---------------------------------------------------------------- observations

  /** One price seen: the outcome key, the price and the bookmaker's title. */
  datatype Observation = Observation(key: string, price: int, bookmaker: string)

  /**
   * The prices one bookmaker contributes: the outcomes of its first market
   * with the requested key, in order, or nothing when it has no such market.
   */
  function BookmakerObservations(b: Bookmaker, market: string): seq<Observation> {
    match FindMarket(b.markets, market)
    case None => []
    case Some(m) => OutcomeObservations(b.markets[m].outcomes, b.title)
  }

  function OutcomeObservations(outcomes: seq<Outcome>, title: string): seq<Observation>
    decreases |outcomes|
  {
    if outcomes == [] then []
    else
      var last := outcomes[|outcomes| - 1];
      OutcomeObservations(outcomes[..|outcomes| - 1], title) + [Observation(OutcomeKey(last), last.price, title)]
  }

  lemma OutcomeObservationsSnoc(outcomes: seq<Outcome>, title: string, j: nat)
    requires j < |outcomes|
    ensures OutcomeObservations(outcomes[..j + 1], title)
         == OutcomeObservations(outcomes[..j], title) + [Observation(OutcomeKey(outcomes[j]), outcomes[j].price, title)]
  {
    assert outcomes[..j + 1][..j] == outcomes[..j];
  }

  /** Observation `i` of a bookmaker is its `i`-th outcome of the market, keyed and titled. */
  lemma {:induction false} OutcomeObservationsAre(outcomes: seq<Outcome>, title: string)
    ensures |OutcomeObservations(outcomes, title)| == |outcomes|
    ensures forall i :: 0 <= i < |outcomes| ==>
      OutcomeObservations(outcomes, title)[i] == Observation(OutcomeKey(outcomes[i]), outcomes[i].price, title)
    decreases |outcomes|
  {
    if outcomes != [] {
      OutcomeObservationsAre(outcomes[..|outcomes| - 1], title);
    }
  }

  /** A bookmaker without the market contributes nothing; one with it contributes each outcome of its first such market. */
  lemma BookmakerObservationsAre(b: Bookmaker, market: string)
    ensures FindMarket(b.markets, market).None? ==> BookmakerObservations(b, market) == []
    ensures FindMarket(b.markets, market).Some? ==>
      var outcomes := b.markets[FindMarket(b.markets, market).value].outcomes;
      |BookmakerObservations(b, market)| == |outcomes| &&
      forall i :: 0 <= i < |outcomes| ==>
        BookmakerObservations(b, market)[i] == Observation(OutcomeKey(outcomes[i]), outcomes[i].price, b.title)
  {
    if FindMarket(b.markets, market).Some? {
      OutcomeObservationsAre(b.markets[FindMarket(b.markets, market).value].outcomes, b.title);
    }
  }

  /** All prices of the market, bookmaker by bookmaker, in the order the loops visit them. */
  function Observations(bookmakers: seq<Bookmaker>, market: string): seq<Observation>
    decreases |bookmakers|
  {
    if bookmakers == [] then []
    else Observations(bookmakers[..|bookmakers| - 1], market) + BookmakerObservations(bookmakers[|bookmakers| - 1], market)
  }

  lemma ObservationsSnoc(bookmakers: seq<Bookmaker>, market: string, b: nat)
    requires b < |bookmakers|
    ensures Observations(bookmakers[..b + 1], market)
         == Observations(bookmakers[..b], market) + BookmakerObservations(bookmakers[b], market)
  {
    assert bookmakers[..b + 1][..b] == bookmakers[..b];
  }

  /** The outcome keys that occur. */
  function KeysOf(obs: seq<Observation>): set<string> {
    set i | 0 <= i < |obs| :: obs[i].key
  }

  lemma KeysOfSnoc(obs: seq<Observation>)
    requires obs != []
    ensures KeysOf(obs) == KeysOf(obs[..|obs| - 1]) + {obs[|obs| - 1].key}
  {
    var init := obs[..|obs| - 1];
    forall k | k in KeysOf(obs) ensures k in KeysOf(init) + {obs[|obs| - 1].key} {
      var i :| 0 <= i < |obs| && obs[i].key == k;
      if i < |obs| - 1 {
        assert init[i] == obs[i];
      }
    }
    forall k | k in KeysOf(init) ensures k in KeysOf(obs) {
      var i :| 0 <= i < |init| && init[i].key == k;
      assert obs[i] == init[i];
    }
  }

  /** The prices observed under key `k`, in order: an independent reading of what grouping collects. */
  function PricesOf(obs: seq<Observation>, k: string): seq<int>
    decreases |obs|
  {
    if obs == [] then []
    else PricesOf(obs[..|obs| - 1], k) + (if obs[|obs| - 1].key == k then [obs[|obs| - 1].price] else [])
  }

  lemma {:induction false} PricesOfPresent(obs: seq<Observation>, k: string)
    ensures |PricesOf(obs, k)| > 0 <==> k in KeysOf(obs)
    decreases |obs|
  {
    if obs != [] {
      PricesOfPresent(obs[..|obs| - 1], k);
      KeysOfSnoc(obs);
    }
  }

  // ---------------------------------------------------------------- calculateAverageOdds

  /** One step of the first loop: `allOutcomes[key]` created if missing, then the price pushed. */
  function AddPrice(all: map<string, seq<int>>, o: Observation): map<string, seq<int>> {
    if o.key in all then all[o.key := all[o.key] + [o.price]] else all[o.key := [o.price]]
  }

  /** `allOutcomes` after the observations. */
  function Grouped(obs: seq<Observation>): map<string, seq<int>>
    decreases |obs|
  {
    if obs == [] then map[] else AddPrice(Grouped(obs[..|obs| - 1]), obs[|obs| - 1])
  }

  /** Each key that occurs maps to its prices in order, and no other key appears. */
  ghost predicate GroupsPrices(g: map<string, seq<int>>, obs: seq<Observation>) {
    (forall k :: k in g <==> k in KeysOf(obs)) && (forall k :: k in g ==> g[k] == PricesOf(obs, k))
  }

  lemma {:induction false} GroupedIsPrices(obs: seq<Observation>)
    ensures GroupsPrices(Grouped(obs), obs)
    decreases |obs|
  {
    if obs != [] {
      var init := obs[..|obs| - 1];
      var last := obs[|obs| - 1];
      GroupedIsPrices(init);
      KeysOfSnoc(obs);
      forall k | k in Grouped(obs) ensures Grouped(obs)[k] == PricesOf(obs, k) {
        if k == last.key && k !in Grouped(init) {
          PricesOfPresent(init, k);
          assert PricesOf(init, k) == [];
        }
      }
    }
  }

  function Sum(prices: seq<int>): int
    decreases |prices|
  {
    if prices == [] then 0 else Sum(prices[..|prices| - 1]) + prices[|prices| - 1]
  }

  /** `Math.round(odds.reduce((a, b) => a + b, 0) / odds.length)`. */
  function RoundedMean(prices: seq<int>): int
    requires |prices| > 0
  {
    EdgeCalculator.Round(Sum(prices) as real / |prices| as real)
  }

  lemma GroupedNonEmpty(obs: seq<Observation>)
    ensures forall k :: k in Grouped(obs) ==> |Grouped(obs)[k]| > 0
  {
    GroupedIsPrices(obs);
    forall k | k in Grouped(obs) ensures |Grouped(obs)[k]| > 0 {
      PricesOfPresent(obs, k);
    }
  }

  /** Appending one observation after `before + done` is one step of the grouping fold. */
  lemma GroupedSnoc(before: seq<Observation>, done: seq<Observation>, o: Observation)
    ensures Grouped(before + (done + [o])) == AddPrice(Grouped(before + done), o)
  {
    assert before + (done + [o]) == (before + done) + [o];
    assert ((before + done) + [o])[..|before + done|] == before + done;
  }

  /** The inner loop of `calculateAverageOdds`: one bookmaker's prices pushed onto `allOutcomes`. */
  method GroupBookmaker(allOutcomes: map<string, seq<int>>, bookmaker: Bookmaker, market: string, ghost before: seq<Observation>)
    returns (grouped: map<string, seq<int>>)
    requires allOutcomes == Grouped(before)
    ensures grouped == Grouped(before + BookmakerObservations(bookmaker, market))
  {
    grouped := allOutcomes;
    var found := FindMarket(bookmaker.markets, market);
    if found.Some? {
      var outcomes := bookmaker.markets[found.value].outcomes;
      assert before + OutcomeObservations(outcomes[..0], bookmaker.title) == before;
      var j := 0;
      while j < |outcomes|
        invariant 0 <= j <= |outcomes|
        invariant grouped == Grouped(before + OutcomeObservations(outcomes[..j], bookmaker.title))
      {
        var o := Observation(OutcomeKey(outcomes[j]), outcomes[j].price, bookmaker.title);
        OutcomeObservationsSnoc(outcomes, bookmaker.title, j);
        GroupedSnoc(before, OutcomeObservations(outcomes[..j], bookmaker.title), o);
        grouped := AddPrice(grouped, o);
        j := j + 1;
      }
      assert outcomes[..|outcomes|] == outcomes;
    } else {
      assert before + BookmakerObservations(bookmaker, market) == before;
    }
  }

  /** The second loop of `calculateAverageOdds`: each key's prices replaced by their rounded mean. */
  method AveragePrices(allOutcomes: map<string, seq<int>>) returns (averages: map<string, int>)
    requires forall k :: k in allOutcomes ==> |allOutcomes[k]| > 0
    ensures averages == map k | k in allOutcomes :: RoundedMean(allOutcomes[k])
  {
    averages := map[];
    var keys := allOutcomes.Keys;
    while keys != {}
      invariant keys <= allOutcomes.Keys
      invariant averages == map k | k in allOutcomes && k !in keys :: RoundedMean(allOutcomes[k])
      decreases |keys|
    {
      var k :| k in keys;
      averages := averages[k := RoundedMean(allOutcomes[k])];
      keys := keys - {k};
    }
  }

  /** `calculateAverageOdds`: for each outcome key, the rounded mean of its prices. */
  method CalculateAverageOdds(event: Event, market: string) returns (averages: map<string, int>)
    ensures var all := Grouped(Observations(event.bookmakers, market));
      (forall k :: k in all ==> |all[k]| > 0) && averages == map k | k in all :: RoundedMean(all[k])
  {
    var bookmakers := event.bookmakers;
    var allOutcomes: map<string, seq<int>> := map[];
    var b := 0;
    while b < |bookmakers|
      invariant 0 <= b <= |bookmakers|
      invariant allOutcomes == Grouped(Observations(bookmakers[..b], market))
    {
      allOutcomes := GroupBookmaker(allOutcomes, bookmakers[b], market, Observations(bookmakers[..b], market));
      ObservationsSnoc(bookmakers, market, b);
      b := b + 1;
    }
    assert bookmakers[..|bookmakers|] == bookmakers;
    GroupedNonEmpty(Observations(bookmakers, market));
    averages := AveragePrices(allOutcomes);
  }

  function MinOf(prices: seq<int>): int
    requires |prices| > 0
    decreases |prices|
  {
    if |prices| == 1 then prices[0]
    else
      var m := MinOf(prices[..|prices| - 1]);
      if prices[|prices| - 1] < m then prices[|prices| - 1] else m
  }

  function MaxOf(prices: seq<int>): int
    requires |prices| > 0
    decreases |prices|
  {
    if |prices| == 1 then prices[0]
    else
      var m := MaxOf(prices[..|prices| - 1]);
      if prices[|prices| - 1] > m then prices[|prices| - 1] else m
  }

  lemma {:induction false} SumBounds(prices: seq<int>)
    requires |prices| > 0
    ensures |prices| * MinOf(prices) <= Sum(prices) <= |prices| * MaxOf(prices)
    decreases |prices|
  {
    if |prices| > 1 {
      var init := prices[..|prices| - 1];
      var last := prices[|prices| - 1];
      SumBounds(init);
      var n := |init|;
      var lo, hi := MinOf(prices), MaxOf(prices);
      assert lo <= MinOf(init) && lo <= last && MaxOf(init) <= hi && last <= hi;
      MulMono(n, lo, MinOf(init));
      MulMono(n, MaxOf(init), hi);
      MulSucc(n, lo);
      MulSucc(n, hi);
    }
  }

  lemma MulSucc(n: int, a: int)
    ensures (n + 1) * a == n * a + a
  {
  }

  lemma MulMono(n: nat, a: int, b: int)
    requires a <= b
    ensures n * a <= n * b
  {
  }

  lemma MeanBounds(total: real, n: real, lo: real, hi: real)
    requires n > 0.0 && lo * n <= total <= hi * n
    ensures lo <= total / n <= hi
  {
  }

  lemma CastProduct(a: int, b: int)
    ensures (a * b) as real == b as real * a as real
  {
  }

  /** A rounded mean of `n` integers between `lo` and `hi` stays between them. */
  lemma RoundedMeanBounds(total: int, n: int, lo: int, hi: int)
    requires n > 0 && n * lo <= total <= n * hi
    ensures lo <= EdgeCalculator.Round(total as real / n as real) <= hi
  {
    CastProduct(n, lo);
    CastProduct(n, hi);
    MeanBounds(total as real, n as real, lo as real, hi as real);
  }

  /** Each average lies between the lowest and the highest price of its key. */
  lemma AverageInRange(prices: seq<int>)
    requires |prices| > 0
    ensures MinOf(prices) <= RoundedMean(prices) <= MaxOf(prices)
  {
    SumBounds(prices);
    RoundedMeanBounds(Sum(prices), |prices|, MinOf(prices), MaxOf(prices));
  }

  // ---------------------------------------------------------------- getBestOdds

  /** An entry of `bestOdds`. */
  datatype BestQuote = BestQuote(odds: int, bookmaker: string)

  /** One step of the loop: a new key, or a strictly higher price, takes the entry. */
  function Offer(best: map<string, BestQuote>, o: Observation): map<string, BestQuote> {
    if o.key !in best || o.price > best[o.key].odds then best[o.key := BestQuote(o.price, o.bookmaker)] else best
  }

  lemma OfferTakes(best: map<string, BestQuote>, o: Observation)
    requires o.key !in best || o.price > best[o.key].odds
    ensures Offer(best, o) == best[o.key := BestQuote(o.price, o.bookmaker)]
  {
  }

  lemma OfferKeeps(best: map<string, BestQuote>, o: Observation)
    requires o.key in best && o.price <= best[o.key].odds
    ensures Offer(best, o) == best
  {
  }

  /** `bestOdds` after the observations. */
  function Best(obs: seq<Observation>): map<string, BestQuote>
    decreases |obs|
  {
    if obs == [] then map[] else Offer(Best(obs[..|obs| - 1]), obs[|obs| - 1])
  }

  /** Appending one observation after `before + done` is one step of the best-price fold. */
  lemma BestSnoc(before: seq<Observation>, done: seq<Observation>, o: Observation)
    ensures Best(before + (done + [o])) == Offer(Best(before + done), o)
  {
    assert before + (done + [o]) == (before + done) + [o];
    assert ((before + done) + [o])[..|before + done|] == before + done;
  }

  /** The inner loop of `getBestOdds`: one bookmaker's prices offered to `bestOdds`. */
  method OfferBookmaker(bestOdds: map<string, BestQuote>, bookmaker: Bookmaker, market: string, ghost before: seq<Observation>)
    returns (best: map<string, BestQuote>)
    requires bestOdds == Best(before)
    ensures best == Best(before + BookmakerObservations(bookmaker, market))
  {
    best := bestOdds;
    var found := FindMarket(bookmaker.markets, market);
    if found.Some? {
      var outcomes := bookmaker.markets[found.value].outcomes;
      assert before + OutcomeObservations(outcomes[..0], bookmaker.title) == before;
      var j := 0;
      while j < |outcomes|
        invariant 0 <= j <= |outcomes|
        invariant best == Best(before + OutcomeObservations(outcomes[..j], bookmaker.title))
      {
        var key := OutcomeKey(outcomes[j]);
        ghost var o := Observation(key, outcomes[j].price, bookmaker.title);
        OutcomeObservationsSnoc(outcomes, bookmaker.title, j);
        BestSnoc(before, OutcomeObservations(outcomes[..j], bookmaker.title), o);
        if key !in best || outcomes[j].price > best[key].odds {
          OfferTakes(best, o);
          best := best[key := BestQuote(outcomes[j].price, bookmaker.title)];
        } else {
          OfferKeeps(best, o);
        }
        j := j + 1;
      }
      assert outcomes[..|outcomes|] == outcomes;
    } else {
      assert before + BookmakerObservations(bookmaker, market) == before;
    }
  }

  /** `getBestOdds`: for each outcome key, the highest price and the bookmaker that offered it first. */
  method GetBestOdds(event: Event, market: string) returns (bestOdds: map<string, BestQuote>)
    ensures bestOdds == Best(Observations(event.bookmakers, market))
  {
    var bookmakers := event.bookmakers;
    bestOdds := map[];
    var b := 0;
    while b < |bookmakers|
      invariant 0 <= b <= |bookmakers|
      invariant bestOdds == Best(Observations(bookmakers[..b], market))
    {
      bestOdds := OfferBookmaker(bestOdds, bookmakers[b], market, Observations(bookmakers[..b], market));
      ObservationsSnoc(bookmakers, market, b);
      b := b + 1;
    }
    assert bookmakers[..|bookmakers|] == bookmakers;
  }

  /**
   * Observation `i` is where entry `q` for key `k` came from: it carries that
   * price and bookmaker, every earlier price of `k` is lower and no price of
   * `k` is higher.
   */
  ghost predicate BestAt(q: BestQuote, obs: seq<Observation>, k: string, i: int) {
    0 <= i < |obs| && obs[i] == Observation(k, q.odds, q.bookmaker)
    && (forall j :: 0 <= j < i && obs[j].key == k ==> obs[j].price < q.odds)
    && (forall j :: 0 <= j < |obs| && obs[j].key == k ==> obs[j].price <= q.odds)
  }

  ghost predicate BestFor(best: map<string, BestQuote>, obs: seq<Observation>, k: string) {
    k in best && exists i :: BestAt(best[k], obs, k, i)
  }

  /** An observation that does not beat the entry leaves its origin in place. */
  lemma BestAtExtend(q: BestQuote, obs: seq<Observation>, k: string, i: int)
    requires obs != [] && BestAt(q, obs[..|obs| - 1], k, i)
    requires obs[|obs| - 1].key == k ==> obs[|obs| - 1].price <= q.odds
    ensures BestAt(q, obs, k, i)
  {
    var init := obs[..|obs| - 1];
    assert obs[i] == init[i];
    forall j | 0 <= j < |obs| && obs[j].key == k ensures obs[j].price <= q.odds {
      if j < |init| {
        assert obs[j] == init[j];
      }
    }
    forall j | 0 <= j < i && obs[j].key == k ensures obs[j].price < q.odds {
      assert obs[j] == init[j];
    }
  }

  /** An observation that beats every earlier price of its key becomes the entry's origin. */
  lemma BestAtLast(q: BestQuote, init: seq<Observation>, last: Observation, k: string)
    requires last == Observation(k, q.odds, q.bookmaker)
    requires forall j :: 0 <= j < |init| && init[j].key == k ==> init[j].price < q.odds
    ensures BestAt(q, init + [last], k, |init|)
  {
    var obs := init + [last];
    forall j | 0 <= j < |init| && obs[j].key == k ensures obs[j].price < q.odds {
      assert obs[j] == init[j];
    }
  }

  /** In `init`, every price of a key that has an entry is at most the entry's price, and a key without one has no price. */
  lemma InitBelow(init: seq<Observation>, prev: map<string, BestQuote>, k: string, bound: int)
    requires forall k' :: k' in prev <==> k' in KeysOf(init)
    requires k in prev ==> BestFor(prev, init, k) && prev[k].odds < bound
    ensures forall j :: 0 <= j < |init| && init[j].key == k ==> init[j].price < bound
  {
    if k in prev {
      var i :| BestAt(prev[k], init, k, i);
    }
  }

  /** The entry for `k` after one more observation, given the entries before it were right. */
  lemma BestForSnoc(init: seq<Observation>, last: Observation, k: string)
    requires k in Best(init + [last])
    requires forall k' :: k' in Best(init) <==> k' in KeysOf(init)
    requires forall k' :: k' in Best(init) ==> BestFor(Best(init), init, k')
    ensures BestFor(Best(init + [last]), init + [last], k)
  {
    var obs := init + [last];
    assert obs[..|obs| - 1] == init;
    var best := Best(obs);
    var prev := Best(init);
    assert best == Offer(prev, last);
    if k == last.key && (k !in prev || last.price > prev[k].odds) {
      assert best[k] == BestQuote(last.price, last.bookmaker);
      InitBelow(init, prev, k, last.price);
      BestAtLast(best[k], init, last, k);
    } else {
      assert k in prev && best[k] == prev[k];
      var i :| BestAt(prev[k], init, k, i);
      BestAtExtend(prev[k], obs, k, i);
    }
  }

  /**
   * Every key that occurs has an entry and no other key does; each entry is
   * the highest price of its key, from the first bookmaker that offered it.
   */
  lemma {:induction false} BestIsFirstMaximum(obs: seq<Observation>)
    ensures forall k :: k in Best(obs) <==> k in KeysOf(obs)
    ensures forall k :: k in Best(obs) ==> BestFor(Best(obs), obs, k)
    decreases |obs|
  {
    if obs != [] {
      var init := obs[..|obs| - 1];
      BestIsFirstMaximum(init);
      KeysOfSnoc(obs);
      assert obs == init + [obs[|obs| - 1]];
      forall k | k in Best(obs) ensures BestFor(Best(obs), obs, k) {
        BestForSnoc(init, obs[|obs| - 1], k);
      }
    }
  }

  /** Every price of `k` is in its grouped prices, and every grouped price comes from an observation of `k`. */
  lemma {:induction false} PricesOfSource(obs: seq<Observation>, k: string)
    ensures forall j :: 0 <= j < |obs| && obs[j].key == k ==> obs[j].price in PricesOf(obs, k)
    ensures forall x :: x in PricesOf(obs, k) ==> exists j :: 0 <= j < |obs| && obs[j].key == k && obs[j].price == x
    decreases |obs|
  {
    if obs != [] {
      var init := obs[..|obs| - 1];
      PricesOfSource(init, k);
      forall j | 0 <= j < |init| ensures obs[j] == init[j] {
      }
    }
  }

  lemma {:induction false} MaxOfBounds(prices: seq<int>)
    requires |prices| > 0
    ensures MaxOf(prices) in prices
    ensures forall x :: x in prices ==> x <= MaxOf(prices)
    decreases |prices|
  {
    if |prices| > 1 {
      var init := prices[..|prices| - 1];
      MaxOfBounds(init);
      assert prices == init + [prices[|prices| - 1]];
    }
  }

  /**
   * For every outcome key the two aggregations agree: the best price is the
   * highest of the grouped prices, so the average never exceeds it.
   */
  lemma BestIsMaxOfGrouped(obs: seq<Observation>, k: string)
    requires k in KeysOf(obs)
    ensures k in Grouped(obs) && k in Best(obs) && |Grouped(obs)[k]| > 0
    ensures Best(obs)[k].odds == MaxOf(Grouped(obs)[k])
    ensures RoundedMean(Grouped(obs)[k]) <= Best(obs)[k].odds
  {
    GroupedIsPrices(obs);
    GroupedNonEmpty(obs);
    BestIsFirstMaximum(obs);
    var prices := Grouped(obs)[k];
    var q := Best(obs)[k];
    assert BestFor(Best(obs), obs, k);
    var i :| BestAt(q, obs, k, i);
    PricesOfSource(obs, k);
    MaxOfBounds(prices);
    assert q.odds in prices;
    var j :| 0 <= j < |obs| && obs[j].key == k && obs[j].price == MaxOf(prices);
    AverageInRange(prices);
  }

  /** Both aggregations of the same event and market have exactly the same outcome keys. */
  lemma SameKeys(obs: seq<Observation>)
    ensures Grouped(obs).Keys == Best(obs).Keys
  {
    GroupedIsPrices(obs);
    BestIsFirstMaximum(obs);
  }

  // ---------------------------------------------------------------- helper conversions

  /** The client's `americanToDecimal`, which agrees with the edge calculator's on every input. */
  function AmericanToDecimal(americanOdds: real): (d: real)
    requires americanOdds != 0.0
    ensures d == EdgeCalculator.AmericanToDecimal(americanOdds)
  {
    if americanOdds > 0.0 then americanOdds / 100.0 + 1.0
    else 100.0 / (if americanOdds < 0.0 then -americanOdds else americanOdds) + 1.0
  }

  /** The client's `decimalToAmerican`, which agrees with the edge calculator's on every input. */
  function DecimalToAmerican(decimalOdds: real): (o: int)
    requires decimalOdds != 1.0
    ensures o == EdgeCalculator.DecimalToAmerican(decimalOdds)
  {
    if decimalOdds >= 2.0 then EdgeCalculator.Round((decimalOdds - 1.0) * 100.0)
    else EdgeCalculator.Round(-100.0 / (decimalOdds - 1.0))
  }

  /** The client's `calculateImpliedProbability`, which agrees with the edge calculator's on every input. */
  function ImpliedProbability(americanOdds: real): (p: real)
    ensures p == EdgeCalculator.ImpliedProbability(americanOdds)
  {
    var m := if americanOdds < 0.0 then -americanOdds else americanOdds;
    if americanOdds > 0.0 then 100.0 / (americanOdds + 100.0) * 100.0
    else m / (m + 100.0) * 100.0
  }
}
