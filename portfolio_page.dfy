/**
 * The derived values of the portfolio page (`src/pages/PortfolioPage.jsx`):
 * the total value of the holdings and its 24-hour change, the add-to-holding
 * form submission, the guard of the "update" button and the two-point chart.
 */
module PortfolioPage {
  import opened Wrappers
  import opened JsObject
  import opened CoinsSlice
  import opened PortfolioSlice

  /** A pair of running sums: value now, and the change in value over 24 hours. */
  datatype Totals = Totals(value: real, change: real)

  function Add(a: Totals, b: Totals): Totals {
    Totals(a.value + b.value, a.change + b.change)
  }

  /** The 24-hour percent change of a coin; a missing one counts as 0. */
  function Percent(coin: Coin): real {
    coin.priceChangePercentage24h.GetOr(0.0)
  }

  /**
   * What the holding under `coinId` adds to both sums: nothing when the
   * snapshot has no such coin (or there is no holding), otherwise its
   * current value and `(percent / 100) * price * amount`.
   */
  function Line(holdings: Dict<real>, coins: Dict<Coin>, coinId: string): Totals {
    LineOf(Get(coins, coinId), Get(holdings, coinId))
  }

  function LineOf(coin: Option<Coin>, amount: Option<real>): Totals {
    if coin.Some? && amount.Some? then
      Totals(coin.value.currentPrice * amount.value,
             Percent(coin.value) / 100.0 * coin.value.currentPrice * amount.value)
    else Totals(0.0, 0.0)
  }

  /** The sums over the holdings with ids `ids`, added up in that order. */
  function SumLines(holdings: Dict<real>, coins: Dict<Coin>, ids: seq<string>): Totals {
    if ids == [] then Totals(0.0, 0.0)
    else Add(SumLines(holdings, coins, ids[..|ids| - 1]), Line(holdings, coins, ids[|ids| - 1]))
  }

  /**
   * The sums over all holdings, in the order of `Object.entries(holdings)`.
   * When no held coin is in the snapshot, both sums stay 0.
   */
  function Sums(holdings: Dict<real>, coins: Dict<Coin>): (r: Totals)
    ensures (forall k :: k in holdings.entries ==> k !in coins.entries) ==> r == Totals(0.0, 0.0)
  {
    SumLinesNoListedCoin(holdings, coins, holdings.keys);
    SumLines(holdings, coins, holdings.keys)
  }

  /** Ids none of which names a coin of the snapshot add nothing to either sum. */
  lemma {:induction false} SumLinesNoListedCoin(holdings: Dict<real>, coins: Dict<Coin>, ids: seq<string>)
    ensures (forall j :: 0 <= j < |ids| ==> ids[j] !in coins.entries) ==>
      SumLines(holdings, coins, ids) == Totals(0.0, 0.0)
  {
    if ids != [] && forall j :: 0 <= j < |ids| ==> ids[j] !in coins.entries {
      var init := ids[..|ids| - 1];
      assert forall j :: 0 <= j < |init| ==> init[j] == ids[j];
      SumLinesNoListedCoin(holdings, coins, init);
      assert Get(coins, ids[|ids| - 1]) == None;
    }
  }

  /** The guarded percent `value ? (change / value) * 100 : 0`. */
  function ChangePercent(value: real, change: real): (r: real)
    ensures value == 0.0 ==> r == 0.0
    ensures value != 0.0 ==> r * value == change * 100.0
  {
    if value != 0.0 then change / value * 100.0 else 0.0
  }

  /** The `useMemo` computation of `totalValue` and `totalChange`. */
  method ComputeTotals(holdings: Dict<real>, coins: Dict<Coin>) returns (totalValue: real, totalChange: real)
    ensures totalValue == Sums(holdings, coins).value
    ensures totalChange == ChangePercent(totalValue, Sums(holdings, coins).change)
  {
    var value, change := 0.0, 0.0;
    var ids := holdings.keys;
    var i := 0;
    while i < |ids|
      invariant 0 <= i <= |ids|
      invariant Totals(value, change) == SumLines(holdings, coins, ids[..i])
    {
      var coinId := ids[i];
      var amount := holdings.entries[coinId];
      SumLinesStep(holdings, coins, ids, i);
      match Get(coins, coinId) {
        case Some(coin) =>
          AddLine(value, change, coin, amount);
          value := value + coin.currentPrice * amount;
          change := change + Percent(coin) / 100.0 * coin.currentPrice * amount;
        case None =>
      }
      i := i + 1;
    }
    assert ids[..|ids|] == ids;
    totalValue := value;
    totalChange := if value != 0.0 then change / value * 100.0 else 0.0;
  }

  /** Adding a listed coin's line to running sums, written as the loop writes it. */
  lemma AddLine(value: real, change: real, coin: Coin, amount: real)
    ensures Add(Totals(value, change), LineOf(Some(coin), Some(amount)))
         == Totals(value + coin.currentPrice * amount, change + Percent(coin) / 100.0 * coin.currentPrice * amount)
  {
  }

  /** One more id in the prefix adds that holding's line to both sums. */
  lemma SumLinesStep(holdings: Dict<real>, coins: Dict<Coin>, ids: seq<string>, i: int)
    requires 0 <= i < |ids| && ids[i] in holdings.entries
    ensures SumLines(holdings, coins, ids[..i + 1])
         == Add(SumLines(holdings, coins, ids[..i]), LineOf(Get(coins, ids[i]), Some(holdings.entries[ids[i]])))
  {
    assert ids[..i + 1][..i] == ids[..i];
  }

  /** A holding whose coin is absent from the snapshot adds nothing to either sum. */
  lemma UnknownCoinIgnored(holdings: Dict<real>, coins: Dict<Coin>, coinId: string, amount: real)
    requires coinId !in coins.entries
    ensures Sums(Set(holdings, coinId, amount), coins) == Sums(holdings, coins)
  {
    var h2 := Set(holdings, coinId, amount);
    forall k ensures Line(holdings, coins, k) == Line(h2, coins, k) {
      if k != coinId {
        assert Get(holdings, k) == Get(h2, k);
      }
    }
    SumLinesUnchanged(holdings, h2, coins, holdings.keys);
    if coinId !in holdings.entries {
      var ids := h2.keys;
      assert ids[..|ids| - 1] == holdings.keys;
    }
  }

  /** Two holdings objects whose lines agree on every id in `ids` give the same sums over `ids`. */
  lemma {:induction false} SumLinesUnchanged(h1: Dict<real>, h2: Dict<real>, coins: Dict<Coin>, ids: seq<string>)
    requires forall k :: k in ids ==> Line(h1, coins, k) == Line(h2, coins, k)
    ensures SumLines(h1, coins, ids) == SumLines(h2, coins, ids)
  {
    if ids != [] {
      var last := ids[|ids| - 1];
      assert Line(h1, coins, last) == Line(h2, coins, last);
      SumLinesUnchanged(h1, h2, coins, ids[..|ids| - 1]);
    }
  }

  /** Removing a holding takes exactly its line out of both sums. */
  lemma RemoveHoldingSums(holdings: Dict<real>, coins: Dict<Coin>, coinId: string)
    ensures Add(Sums(Delete(holdings, coinId), coins), Line(holdings, coins, coinId)) == Sums(holdings, coins)
  {
    var h2 := Delete(holdings, coinId);
    if coinId in holdings.entries {
      SumLinesWithout(holdings, h2, coins, holdings.keys, coinId);
    } else {
      assert h2 == holdings;
    }
  }

  /** Summing over the ids with `coinId` left out misses exactly its line. */
  lemma {:induction false} SumLinesWithout(h1: Dict<real>, h2: Dict<real>, coins: Dict<Coin>, ids: seq<string>, coinId: string)
    requires Distinct(ids) && coinId in ids
    requires forall k :: k != coinId ==> Get(h1, k) == Get(h2, k)
    ensures Add(SumLines(h2, coins, Without(ids, coinId)), Line(h1, coins, coinId)) == SumLines(h1, coins, ids)
  {
    var init, last := ids[..|ids| - 1], ids[|ids| - 1];
    assert ids == init + [last];
    assert Distinct(init);
    if last == coinId {
      assert coinId !in init;
      assert Without(ids, coinId) == Without(init, coinId) == init;
      forall k | k in init ensures Line(h1, coins, k) == Line(h2, coins, k) {
        assert Get(h1, k) == Get(h2, k);
      }
      SumLinesUnchanged(h1, h2, coins, init);
    } else {
      var w := Without(init, coinId);
      assert Without(ids, coinId) == w + [last];
      assert (w + [last])[..|w|] == w;
      SumLinesWithout(h1, h2, coins, init, coinId);
    }
  }

  /**
   * With one holding of a listed coin whose value is not zero, the total is
   * that value and the 24-hour change is the coin's own percent.
   */
  lemma SingleHolding(coins: Dict<Coin>, coinId: string, amount: real)
    requires coinId in coins.entries
    requires coins.entries[coinId].currentPrice * amount != 0.0
    ensures var s := Sums(Set(Empty(), coinId, amount), coins);
      && s.value == coins.entries[coinId].currentPrice * amount
      && ChangePercent(s.value, s.change) == Percent(coins.entries[coinId])
  {
    var h := Set(Empty(), coinId, amount);
    var coin := coins.entries[coinId];
    var p, price := Percent(coin), coin.currentPrice;
    assert h.keys == [coinId] && h.keys[..0] == [];
    var line := Line(h, coins, coinId);
    assert line == Totals(price * amount, p / 100.0 * price * amount);
    assert Sums(h, coins) == Add(SumLines(h, coins, h.keys[..0]), Line(h, coins, h.keys[0]));
    assert Sums(h, coins) == Add(Totals(0.0, 0.0), line);
    PercentOfOwnValue(p, price, amount);
  }

  /** A percent applied to a non-zero value and divided back out gives the percent. */
  lemma PercentOfOwnValue(p: real, price: real, amount: real)
    requires price * amount != 0.0
    ensures ChangePercent(price * amount, p / 100.0 * price * amount) == p
  {
    var v := price * amount;
    assert p / 100.0 * price * amount == (p / 100.0) * v;
    assert ((p / 100.0) * v) / v == p / 100.0;
  }

  /** The value of `existing || 0`, plus the submitted amount. */
  function SubmittedAmount(holdings: Dict<real>, coinId: string, newAmount: real): (r: real)
    ensures coinId in holdings.entries ==> r == holdings.entries[coinId] + newAmount
    ensures coinId !in holdings.entries ==> r == newAmount
  {
    Get(holdings, coinId).GetOr(0.0) + newAmount
  }

  /** The form's submit handler: adds the amount to the holding rather than overwriting it. */
  method OnSubmit(store: PortfolioStore, coinId: string, newAmount: real)
    modifies store
    ensures store.holdings == Set(old(store.holdings), coinId, SubmittedAmount(old(store.holdings), coinId, newAmount))
  {
    var existing := Get(store.holdings, coinId).GetOr(0.0);
    store.SetHolding(coinId, existing + newAmount);
  }

  /** Two submissions for the same id leave the sum of both on top of what was held. */
  lemma SubmitTwiceAccumulates(holdings: Dict<real>, coinId: string, a: real, b: real)
    ensures var h1 := Set(holdings, coinId, SubmittedAmount(holdings, coinId, a));
      Get(Set(h1, coinId, SubmittedAmount(h1, coinId, b)), coinId)
        == Some(Get(holdings, coinId).GetOr(0.0) + a + b)
  {
  }

  /** The values the update button loads into the form: the coin id and its held amount. */
  datatype FormValues = FormValues(coinId: string, amount: Option<real>)

  /**
   * The update button's handler: nothing happens for an empty id or one the
   * snapshot does not list; otherwise it selects the coin and loads the form.
   */
  function HandleUpdate(coins: Dict<Coin>, holdings: Dict<real>, coinId: string): (r: Option<FormValues>)
    ensures r == None <==> coinId == "" || coinId !in coins.entries
    ensures r.Some? ==> r.value.coinId == coinId && r.value.amount == Get(holdings, coinId)
  {
    if coinId == "" then None
    else if Get(coins, coinId).None? then None
    else Some(FormValues(coinId, Get(holdings, coinId)))
  }

  datatype ChartPoint = ChartPoint(name: string, value: real)

  /** The two points of the value chart: 24 hours ago (estimated) and now. */
  function ChartData(totalValue: real, totalChange: real): (r: seq<ChartPoint>)
    ensures |r| == 2
    ensures r[0].name == "24h Ago" && r[1].name == "Now"
    ensures r[1].value == totalValue
  {
    [ChartPoint("24h Ago", totalValue * (1.0 - totalChange / 100.0)), ChartPoint("Now", totalValue)]
  }

  /**
   * The "24h Ago" point is the current total less the summed 24-hour change
   * (0 when the total is 0), so the chart's drop equals the change sum.
   */
  lemma ChartStartIsValueLessChange(holdings: Dict<real>, coins: Dict<Coin>)
    ensures var s := Sums(holdings, coins);
      var start := ChartData(s.value, ChangePercent(s.value, s.change))[0].value;
      && (s.value != 0.0 ==> start == s.value - s.change)
      && (s.value == 0.0 ==> start == 0.0)
  {
    var s := Sums(holdings, coins);
    if s.value != 0.0 {
      var pct := ChangePercent(s.value, s.change);
      calc {
        s.value * (1.0 - pct / 100.0);
        == s.value - s.value * pct / 100.0;
        == s.value - s.change;
      }
    }
  }

  /**
   * Three units of a coin at 100 that rose 10%: the total is 300, its change
   * 10%, and the chart runs from 270 to 300.
   */
  lemma ThreeUnitsExample()
    ensures var coin := Coin("A", "a", "A", "", 100.0, 1.0, 1, Some(10.0));
      var coins := Set(Empty(), "A", coin);
      var s := Sums(Set(Empty(), "A", 3.0), coins);
      var pct := ChangePercent(s.value, s.change);
      && s.value == 300.0 && pct == 10.0
      && ChartData(s.value, pct) == [ChartPoint("24h Ago", 270.0), ChartPoint("Now", 300.0)]
  {
    var coin := Coin("A", "a", "A", "", 100.0, 1.0, 1, Some(10.0));
    var coins := Set(Empty(), "A", coin);
    SingleHolding(coins, "A", 3.0);
  }
}
