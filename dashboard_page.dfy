/**
 * The coin table filter of the dashboard (`src/pages/DashboardPage.jsx`,
 * `filteredCoins`): the coins of the snapshot, in key order, that pass the
 * text search, the rank tier and the sign of the 24-hour change.
 */
module DashboardPage {
  import opened Wrappers
  import opened Text
  import opened JsObject
  import opened CoinsSlice
  import opened SearchSlice

  /**
   * Case-insensitive substring test of the query on the name or the symbol:
   * the lower-cased query occurs at some position of the lower-cased name or
   * of the lower-cased symbol.
   */
  function MatchesQuery(coin: Coin, query: string): (r: bool)
    ensures r <==> || (exists i :: OccursAt(ToLower(coin.name), ToLower(query), i))
                   || (exists i :: OccursAt(ToLower(coin.symbol), ToLower(query), i))
  {
    IncludesIff(ToLower(coin.name), ToLower(query));
    IncludesIff(ToLower(coin.symbol), ToLower(query));
    || Includes(ToLower(coin.name), ToLower(query))
    || Includes(ToLower(coin.symbol), ToLower(query))
  }

  /**
   * Rank tier: top 10 when `top` is 10, top 50 for any other value. Every
   * coin of the top 10 passes, no coin past rank 50 does.
   */
  function MatchesTop(coin: Coin, top: int): (r: bool)
    ensures coin.marketCapRank <= 10 ==> r
    ensures r ==> coin.marketCapRank <= 50
    ensures top == 10 && r ==> coin.marketCapRank <= 10
    ensures top != 10 && coin.marketCapRank <= 50 ==> r
  {
    if top == 10 then coin.marketCapRank <= 10 else coin.marketCapRank <= 50
  }

  /**
   * Sign of the 24-hour change: "all" passes everything, "positive" wants a
   * rise, and any other value wants a fall. A missing change is neither, and
   * neither is a change of exactly 0.
   */
  function MatchesChange(coin: Coin, priceChange: string): (r: bool)
    ensures priceChange == "all" ==> r
    ensures r && priceChange != "all" ==>
      coin.priceChangePercentage24h.Some? && coin.priceChangePercentage24h.value != 0.0
    ensures priceChange == "positive" && coin.priceChangePercentage24h.Some? ==>
      (r <==> coin.priceChangePercentage24h.value > 0.0)
    ensures priceChange != "all" && priceChange != "positive" && coin.priceChangePercentage24h.Some? ==>
      (r <==> coin.priceChangePercentage24h.value < 0.0)
  {
    if priceChange == "all" then true
    else if priceChange == "positive" then
      coin.priceChangePercentage24h.Some? && coin.priceChangePercentage24h.value > 0.0
    else
      coin.priceChangePercentage24h.Some? && coin.priceChangePercentage24h.value < 0.0
  }

  predicate Matches(coin: Coin, query: string, filter: Filter) {
    MatchesQuery(coin, query) && MatchesTop(coin, filter.top) && MatchesChange(coin, filter.priceChange)
  }

  /** `a` is obtained from `b` by leaving elements out, keeping the order of the rest. */
  predicate IsSubsequence<T(==)>(a: seq<T>, b: seq<T>)
    decreases |b|
  {
    || a == []
    || (b != [] && ((a[0] == b[0] && IsSubsequence(a[1..], b[1..])) || IsSubsequence(a, b[1..])))
  }

  /**
   * `coins.filter(...)`: keeps, in order, exactly the coins that pass all
   * three tests.
   */
  function FilterCoins(coins: seq<Coin>, query: string, filter: Filter): (r: seq<Coin>)
    ensures IsSubsequence(r, coins) && |r| <= |coins|
    ensures forall c :: c in r ==> c in coins && Matches(c, query, filter)
    ensures forall c :: c in coins && Matches(c, query, filter) ==> c in r
    ensures forall c :: multiset(r)[c] == if Matches(c, query, filter) then multiset(coins)[c] else 0
  {
    if coins == [] then []
    else
      assert coins == [coins[0]] + coins[1..];
      var rest := FilterCoins(coins[1..], query, filter);
      if Matches(coins[0], query, filter) then [coins[0]] + rest else rest
  }

  /** The filtered coin list of the dashboard: `Object.values(coins).filter(...)`. */
  function FilteredCoins(entities: Dict<Coin>, query: string, filter: Filter): (r: seq<Coin>)
    ensures |r| <= |entities.keys|
    ensures forall c :: multiset(r)[c] == if Matches(c, query, filter) then multiset(Values(entities))[c] else 0
  {
    FilterCoins(Values(entities), query, filter)
  }

  /** The listed coins are the snapshot's coins that pass the tests, and only those. */
  lemma FilteredCoinsIff(entities: Dict<Coin>, query: string, filter: Filter, k: string)
    requires k in entities.entries
    ensures entities.entries[k] in FilteredCoins(entities, query, filter)
        <==> Matches(entities.entries[k], query, filter)
  {
  }

  /** Every listed coin is a stored coin, and the list keeps the key order of `entities`. */
  lemma FilteredCoinsInOrder(entities: Dict<Coin>, query: string, filter: Filter)
    ensures IsSubsequence(FilteredCoins(entities, query, filter), Values(entities))
    ensures forall c :: c in FilteredCoins(entities, query, filter) ==>
      exists k :: k in entities.entries && entities.entries[k] == c
  {
    forall c | c in FilteredCoins(entities, query, filter)
      ensures exists k :: k in entities.entries && entities.entries[k] == c
    {
      StoredValue(entities, c);
    }
  }

  /**
   * What a listed coin satisfies, test by test: rank at most 10 when `top`
   * is 10 and at most 50 otherwise; a rise for "positive", a fall for any
   * value other than "all" and "positive".
   */
  lemma ListedCoinPassesTiers(coins: seq<Coin>, query: string, filter: Filter, c: Coin)
    requires c in FilterCoins(coins, query, filter)
    ensures filter.top == 10 ==> c.marketCapRank <= 10
    ensures filter.top != 10 ==> c.marketCapRank <= 50
    ensures filter.priceChange == "positive" ==>
      c.priceChangePercentage24h.Some? && c.priceChangePercentage24h.value > 0.0
    ensures filter.priceChange != "all" && filter.priceChange != "positive" ==>
      c.priceChangePercentage24h.Some? && c.priceChangePercentage24h.value < 0.0
  {
  }

  /** A coin without a 24-hour change passes the change test only under "all". */
  lemma MissingChangeOnlyPassesAll(coin: Coin, priceChange: string)
    requires coin.priceChangePercentage24h == None
    ensures MatchesChange(coin, priceChange) <==> priceChange == "all"
  {
  }

  /** An empty query lets every coin through the text test. */
  lemma EmptyQueryMatchesAll(coin: Coin)
    ensures MatchesQuery(coin, "")
  {
    assert ToLower("") == "";
    IncludesEmpty(ToLower(coin.name));
  }

  /** A listed coin's lower-cased name or symbol contains the lower-cased query at some position. */
  lemma ListedCoinContainsQuery(coins: seq<Coin>, query: string, filter: Filter, c: Coin)
    requires c in FilterCoins(coins, query, filter)
    ensures || (exists i :: OccursAt(ToLower(c.name), ToLower(query), i))
            || (exists i :: OccursAt(ToLower(c.symbol), ToLower(query), i))
  {
    IncludesIff(ToLower(c.name), ToLower(query));
    IncludesIff(ToLower(c.symbol), ToLower(query));
  }

  /**
   * Widening the rank tier from 10 to any other value only adds coins: the
   * top-10 list is a subsequence of the wider list.
   */
  lemma {:induction false} WideningTopKeepsCoins(coins: seq<Coin>, query: string, filter: Filter, top: int)
    requires filter.top == 10
    ensures IsSubsequence(FilterCoins(coins, query, filter), FilterCoins(coins, query, filter.(top := top)))
  {
    if coins != [] {
      var wide := filter.(top := top);
      WideningTopKeepsCoins(coins[1..], query, filter, top);
      var a, b := FilterCoins(coins[1..], query, filter), FilterCoins(coins[1..], query, wide);
      if Matches(coins[0], query, filter) {
        assert Matches(coins[0], query, wide);
        assert ([coins[0]] + a)[1..] == a && ([coins[0]] + b)[1..] == b;
      } else if Matches(coins[0], query, wide) {
        assert ([coins[0]] + b)[1..] == b;
      }
    }
  }

  /**
   * Two coins, A (rank 5, up 2%) and B (rank 20, down 1%): with an empty
   * query the top-10 list is [A]; asking for falling coins empties it.
   */
  lemma TwoCoinExample()
    ensures var a := Coin("A", "a", "A", "", 1.0, 1.0, 5, Some(2.0));
      var b := Coin("B", "b", "B", "", 1.0, 1.0, 20, Some(-1.0));
      var entities := Set(Set(Empty(), "A", a), "B", b);
      && FilteredCoins(entities, "", Filter(10, "all")) == [a]
      && FilteredCoins(entities, "", Filter(10, "negative")) == []
  {
    var a := Coin("A", "a", "A", "", 1.0, 1.0, 5, Some(2.0));
    var b := Coin("B", "b", "B", "", 1.0, 1.0, 20, Some(-1.0));
    var one := Set(Empty(), "A", a);
    ValuesOfNewKey(Empty(), "A", a);
    ValuesOfNewKey(one, "B", b);
    var entities := Set(one, "B", b);
    assert Values(entities) == [a, b];
    var all, negative := Filter(10, "all"), Filter(10, "negative");
    TwoCoinTests(a, b);
    TwoCoinFilter(a, b, all);
    TwoCoinFilter(a, b, negative);
    assert FilteredCoins(entities, "", all) == FilterCoins([a, b], "", all) == [a];
    assert FilteredCoins(entities, "", negative) == FilterCoins([a, b], "", negative) == [];
  }

  /** How the two coins of the example fare under each test. */
  lemma TwoCoinTests(a: Coin, b: Coin)
    requires a.marketCapRank == 5 && a.priceChangePercentage24h == Some(2.0)
    requires b.marketCapRank == 20
    ensures Matches(a, "", Filter(10, "all")) && !Matches(b, "", Filter(10, "all"))
    ensures !Matches(a, "", Filter(10, "negative")) && !Matches(b, "", Filter(10, "negative"))
  {
    EmptyQueryMatchesAll(a);
  }

  /** Filtering a two-coin list one coin at a time. */
  lemma TwoCoinFilter(a: Coin, b: Coin, filter: Filter)
    ensures FilterCoins([a, b], "", filter)
         == (if Matches(a, "", filter) then [a] else []) + (if Matches(b, "", filter) then [b] else [])
  {
    assert [a, b][1..] == [b] && [b][1..] == [];
  }
}
