/**
 * Betting arithmetic on American odds, stated on exact rationals: conversion
 * to and from decimal odds, implied probability, edge, expected value and
 * return on investment, the best quote among bookmakers, and the
 * bookmaker's margin (the vig) and its removal.
 */
module EdgeCalculator {
  import opened Wrappers

  function Abs(x: real): real { if x < 0.0 then -x else x }

  /** `Math.round`: the nearest integer, halves going up. */
  function Round(x: real): (n: int)
    ensures x - 0.5 < n as real <= x + 0.5
  {
    (x + 0.5).Floor
  }

  lemma RoundInteger(n: int)
    ensures Round(n as real) == n
  {
  }

  // ---------------------------------------------------------------- conversions

  /**
   * `americanToDecimal`: the total return per unit staked. Positive odds are
   * the profit on a stake of 100, negative odds the stake that wins 100.
   * Zero odds would divide by zero.
   */
  function AmericanToDecimal(americanOdds: real): (d: real)
    requires americanOdds != 0.0
    ensures d > 1.0
    ensures americanOdds > 0.0 ==> (d - 1.0) * 100.0 == americanOdds
    ensures americanOdds < 0.0 ==> (d - 1.0) * Abs(americanOdds) == 100.0
    ensures d >= 2.0 <==> americanOdds >= 100.0 || -100.0 <= americanOdds < 0.0
  {
    if americanOdds > 0.0 then americanOdds / 100.0 + 1.0
    else
      var m := Abs(americanOdds);
      assert 100.0 / m * m == 100.0;
      assert 100.0 / m >= 1.0 <==> m <= 100.0 by {
        if m <= 100.0 {
          assert 100.0 / m * m >= 1.0 * m;
        } else {
          assert 100.0 / m * m < 1.0 * m;
        }
      }
      100.0 / m + 1.0
  }

  /** `decimalToAmerican`: positive American odds from decimal 2 up, negative below. Decimal 1 would divide by zero. */
  function DecimalToAmerican(decimalOdds: real): (a: int)
    requires decimalOdds != 1.0
    ensures decimalOdds >= 2.0 ==> a >= 100
    ensures 1.0 < decimalOdds < 2.0 ==> a <= -100
  {
    if decimalOdds >= 2.0 then Round((decimalOdds - 1.0) * 100.0)
    else
      assert 1.0 < decimalOdds < 2.0 ==> -100.0 / (decimalOdds - 1.0) < -100.0 by {
        if 1.0 < decimalOdds < 2.0 {
          DivBelowOne(decimalOdds - 1.0);
        }
      }
      Round(-100.0 / (decimalOdds - 1.0))
  }

  lemma DivBelowOne(x: real)
    requires 0.0 < x < 1.0
    ensures 100.0 / x > 100.0
  {
    assert 100.0 / x * x == 100.0;
  }

  /** `calculateImpliedProbability`: the probability, in percent, that the odds price in. */
  function ImpliedProbability(americanOdds: real): (p: real)
    ensures americanOdds != 0.0 ==> 0.0 < p < 100.0
    ensures americanOdds == 0.0 ==> p == 0.0
  {
    if americanOdds > 0.0 then 100.0 / (americanOdds + 100.0) * 100.0
    else Abs(americanOdds) / (Abs(americanOdds) + 100.0) * 100.0
  }

  /** The implied probability is the reciprocal of the decimal odds, in percent. */
  lemma ImpliedIsReciprocal(americanOdds: real)
    requires americanOdds != 0.0
    ensures ImpliedProbability(americanOdds) == 100.0 / AmericanToDecimal(americanOdds)
  {
    var o := americanOdds;
    if o > 0.0 {
      assert o / 100.0 + 1.0 == (o + 100.0) / 100.0;
    } else {
      var m := Abs(o);
      assert 100.0 / m + 1.0 == (100.0 + m) / m;
    }
  }

  /** Plus 150 prices a 40% chance, minus 150 a 60% one. */
  lemma ImpliedExamples()
    ensures ImpliedProbability(150.0) == 40.0
    ensures ImpliedProbability(-150.0) == 60.0
  {
  }

  /**
   * Back and forth through decimal odds returns the same American odds for
   * every integer price from 100 up and below -100; -100 comes back as +100,
   * because its decimal odds 2 take the positive branch.
   */
  lemma RoundTrip(o: int)
    requires o >= 100 || o <= -100
    ensures o >= 100 || o < -100 ==> DecimalToAmerican(AmericanToDecimal(o as real)) == o
    ensures o == -100 ==> DecimalToAmerican(AmericanToDecimal(o as real)) == 100
  {
    var x := o as real;
    if o >= 100 {
      assert (x / 100.0 + 1.0 - 1.0) * 100.0 == x;
      RoundInteger(o);
    } else if o < -100 {
      var d := AmericanToDecimal(x);
      assert d - 1.0 == 100.0 / -x;
      assert -100.0 / (100.0 / -x) == x;
      RoundInteger(o);
    } else {
      assert AmericanToDecimal(x) == 2.0;
      RoundInteger(100);
    }
  }

  // ---------------------------------------------------------------- edge, EV and ROI

  /** `calculateEdgeScore`: expected profit per unit staked, in percent. */
  function EdgeScore(trueProbability: real, americanOdds: real): (e: real)
    requires americanOdds != 0.0
    ensures e == trueProbability * AmericanToDecimal(americanOdds) - 100.0
  {
    (trueProbability / 100.0 * AmericanToDecimal(americanOdds) - 1.0) * 100.0
  }

  /** The edge is positive exactly when the estimated probability beats the implied one. */
  lemma EdgePositiveIffValue(trueProbability: real, americanOdds: real)
    requires americanOdds != 0.0
    ensures EdgeScore(trueProbability, americanOdds) > 0.0 <==> trueProbability > ImpliedProbability(americanOdds)
    ensures EdgeScore(trueProbability, americanOdds) == 0.0 <==> trueProbability == ImpliedProbability(americanOdds)
  {
    var d := AmericanToDecimal(americanOdds);
    ImpliedIsReciprocal(americanOdds);
    assert 100.0 / d * d == 100.0;
    if trueProbability > 100.0 / d {
      assert trueProbability * d > 100.0 / d * d;
    } else if trueProbability < 100.0 / d {
      assert trueProbability * d < 100.0 / d * d;
    }
  }

  /** 60% at plus 120 is a 32% edge. */
  lemma EdgeExample()
    ensures EdgeScore(60.0, 120.0) == 32.0
  {
  }

  /** `calculateExpectedValue`: the stake's expected profit, winning with the given percentage. */
  function ExpectedValue(winProbability: real, americanOdds: real, stake: real): (ev: real)
    requires americanOdds != 0.0
    ensures ev == EdgeScore(winProbability, americanOdds) * stake / 100.0
  {
    var decimalOdds := AmericanToDecimal(americanOdds);
    var winAmount := stake * (decimalOdds - 1.0);
    var lossProbability := 100.0 - winProbability;
    winProbability / 100.0 * winAmount - lossProbability / 100.0 * stake
  }

  /** On the default stake of 100 the expected value is the edge. */
  lemma ExpectedValueIsEdge(winProbability: real, americanOdds: real)
    requires americanOdds != 0.0
    ensures ExpectedValue(winProbability, americanOdds, 100.0) == EdgeScore(winProbability, americanOdds)
  {
  }

  /** `calculateROI`: the expected value as a percentage of the stake. A zero stake would divide by zero. */
  function ROI(expectedValue: real, stake: real): (r: real)
    requires stake != 0.0
    ensures r * stake == expectedValue * 100.0
  {
    expectedValue / stake * 100.0
  }

  /** The return on any stake is the edge; on the default stake it is the expected value itself. */
  lemma ROIIsEdge(winProbability: real, americanOdds: real, stake: real)
    requires americanOdds != 0.0 && stake != 0.0
    ensures ROI(ExpectedValue(winProbability, americanOdds, stake), stake) == EdgeScore(winProbability, americanOdds)
    ensures ROI(ExpectedValue(winProbability, americanOdds, 100.0), 100.0) == ExpectedValue(winProbability, americanOdds, 100.0)
  {
    var e := EdgeScore(winProbability, americanOdds);
    var ev := ExpectedValue(winProbability, americanOdds, stake);
    assert ev == e * stake / 100.0;
    assert ev / stake * 100.0 == e;
  }

  // ---------------------------------------------------------------- findBestOdds

  /** One bookmaker entry: `price` or `odds` (an absent or zero price falls back to `odds`), and a name or key. */
  datatype Quote = Quote(price: Option<real>, odds: Option<real>, bookmaker: string, key: string)

  /** `bookmaker.price || bookmaker.odds`; `None` for an entry with neither, which never compares above anything. */
  function QuotedOdds(q: Quote): Option<real> {
    if q.price.Some? && q.price.value != 0.0 then q.price else q.odds
  }

  /** `bookmaker.bookmaker || bookmaker.key`. */
  function QuoteName(q: Quote): string {
    if q.bookmaker != "" then q.bookmaker else q.key
  }

  /**
   * The entry the scan over the first `n` quotes settles on: the highest
   * quoted odds, the earliest of equal ones, or none when no entry quotes
   * anything.
   */
  function BestIndex(quotes: seq<Quote>, n: nat): (r: Option<nat>)
    requires n <= |quotes|
    ensures r.Some? ==> r.value < n && QuotedOdds(quotes[r.value]).Some?
    ensures r.Some? ==> forall k :: 0 <= k < n && QuotedOdds(quotes[k]).Some? ==>
                          QuotedOdds(quotes[k]).value <= QuotedOdds(quotes[r.value]).value
    ensures r.Some? ==> forall k :: 0 <= k < r.value && QuotedOdds(quotes[k]).Some? ==>
                          QuotedOdds(quotes[k]).value < QuotedOdds(quotes[r.value]).value
    ensures r.None? <==> forall k :: 0 <= k < n ==> QuotedOdds(quotes[k]).None?
  {
    if n == 0 then None
    else
      var prev := BestIndex(quotes, n - 1);
      match QuotedOdds(quotes[n - 1])
      case None => prev
      case Some(o) =>
        if prev.None? || o > QuotedOdds(quotes[prev.value]).value then Some(n - 1) else prev
  }

  /** What `findBestOdds` returns; `odds` and `impliedProb` are `None` where the source holds -Infinity and NaN. */
  datatype BestOdds = BestOdds(bookmaker: string, odds: Option<real>, impliedProb: Option<real>)

  /** `findBestOdds`: `null` for no entries, else the best quote with its name and implied probability. */
  method FindBestOdds(quotes: seq<Quote>) returns (r: Option<BestOdds>)
    ensures r.None? <==> |quotes| == 0
    ensures r.Some? ==> match BestIndex(quotes, |quotes|)
      case None => r.value == BestOdds("", None, None)
      case Some(j) =>
        var o := QuotedOdds(quotes[j]).value;
        r.value == BestOdds(QuoteName(quotes[j]), Some(o), Some(ImpliedProbability(o)))
  {
    if |quotes| == 0 {
      return None;
    }
    var bestOdds: Option<real> := None;
    var bestBookmaker := "";
    var i := 0;
    while i < |quotes|
      invariant 0 <= i <= |quotes|
      invariant match BestIndex(quotes, i)
        case None => bestOdds.None? && bestBookmaker == ""
        case Some(j) => bestOdds == QuotedOdds(quotes[j]) && bestBookmaker == QuoteName(quotes[j])
    {
      var odds := QuotedOdds(quotes[i]);
      if odds.Some? && (bestOdds.None? || odds.value > bestOdds.value) {
        bestOdds := odds;
        bestBookmaker := QuoteName(quotes[i]);
      }
      i := i + 1;
    }
    var impliedProb := if bestOdds.Some? then Some(ImpliedProbability(bestOdds.value)) else None;
    r := Some(BestOdds(bestBookmaker, bestOdds, impliedProb));
  }

  // ---------------------------------------------------------------- vig

  /** `calculateFairOdds`: the American odds whose decimal odds are the reciprocal of the probability. */
  function FairOdds(trueProbability: real): (a: int)
    requires trueProbability != 0.0 && trueProbability != 100.0
    ensures 0.0 < trueProbability <= 50.0 ==> a >= 100
    ensures 50.0 < trueProbability < 100.0 ==> a <= -100
  {
    var decimalOdds := 100.0 / trueProbability;
    assert 0.0 < trueProbability <= 50.0 ==> decimalOdds >= 2.0 by {
      if 0.0 < trueProbability <= 50.0 {
        assert decimalOdds * trueProbability == 100.0;
      }
    }
    assert 50.0 < trueProbability < 100.0 ==> 1.0 < decimalOdds < 2.0 by {
      if 50.0 < trueProbability < 100.0 {
        assert decimalOdds * trueProbability == 100.0;
      }
    }
    assert decimalOdds != 1.0 by {
      assert decimalOdds * trueProbability == 100.0;
    }
    DecimalToAmerican(decimalOdds)
  }

  /** Fair odds undo the implied probability for every integer price from 100 up and below -100. */
  lemma FairOddsOfImplied(o: int)
    requires o >= 100 || o < -100
    ensures FairOdds(ImpliedProbability(o as real)) == o
  {
    var x := o as real;
    ImpliedIsReciprocal(x);
    var d := AmericanToDecimal(x);
    assert 100.0 / (100.0 / d) == d;
    RoundTrip(o);
  }

  /** `calculateVig`: how far the two implied probabilities overshoot 100. */
  function Vig(homeOdds: real, awayOdds: real): (v: real)
    ensures v + 100.0 == ImpliedProbability(homeOdds) + ImpliedProbability(awayOdds)
  {
    var homeProb := ImpliedProbability(homeOdds);
    var awayProb := ImpliedProbability(awayOdds);
    homeProb + awayProb - 100.0
  }

  /** `removeVig`: the two implied probabilities scaled to sum to 100. Both odds zero would divide by zero. */
  function RemoveVig(homeOdds: real, awayOdds: real): (r: (real, real))
    requires homeOdds != 0.0 || awayOdds != 0.0
    ensures r.0 + r.1 == 100.0
    ensures homeOdds != 0.0 && awayOdds != 0.0 ==> 0.0 < r.0 < 100.0 && 0.0 < r.1 < 100.0
    ensures r.0 * (ImpliedProbability(homeOdds) + ImpliedProbability(awayOdds)) == ImpliedProbability(homeOdds) * 100.0
  {
    var homeImplied := ImpliedProbability(homeOdds);
    var awayImplied := ImpliedProbability(awayOdds);
    var totalImplied := homeImplied + awayImplied;
    Shares(homeImplied, awayImplied);
    (homeImplied / totalImplied * 100.0, awayImplied / totalImplied * 100.0)
  }

  /** Two non-negative parts, each as a percentage of their total. */
  lemma Shares(x: real, y: real)
    requires x >= 0.0 && y >= 0.0 && x + y > 0.0
    ensures x / (x + y) * 100.0 + y / (x + y) * 100.0 == 100.0
    ensures x / (x + y) * 100.0 * (x + y) == x * 100.0
    ensures x > 0.0 && y > 0.0 ==> 0.0 < x / (x + y) * 100.0 < 100.0 && 0.0 < y / (x + y) * 100.0 < 100.0
  {
    var t := x + y;
    assert x / t + y / t == t / t;
    if x > 0.0 && y > 0.0 {
      assert x / t < 1.0 by {
        assert x / t * t == x;
      }
      assert y / t < 1.0 by {
        assert y / t * t == y;
      }
    }
  }
}
