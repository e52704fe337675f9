/**
 * The coin selectors (`src/state/coins/selectors.js`): projections of the
 * coins slice out of the root state.
 */
module CoinsSelectors {
  import opened Wrappers
  import opened JsObject
  import opened CoinsSlice

  /**
   * The part of the root state these selectors read. The other slices live
   * beside `coins` in the root state and are not read here.
   */
  datatype RootState = RootState(coins: MarketState)

  /** `selectCoins`: the snapshot of coin records keyed by id. */
  function SelectCoins(state: RootState): (r: Dict<Coin>)
    ensures r == state.coins.entities
  {
    state.coins.entities
  }

  /** `selectCoinsLoading`: whether a fetch is in flight. */
  function SelectCoinsLoading(state: RootState): (r: bool)
    ensures r == state.coins.loading
  {
    state.coins.loading
  }

  /** `selectCoinsError`: the payload of the last rejection, if not cleared since. */
  function SelectCoinsError(state: RootState): (r: Option<string>)
    ensures r == state.coins.error
  {
    state.coins.error
  }

  /** `selectCoinsLastUpdated`: the clock reading of the last fulfilled fetch. */
  function SelectCoinsLastUpdated(state: RootState): (r: Option<int>)
    ensures r == state.coins.lastUpdated
  {
    state.coins.lastUpdated
  }

  /** Each selector reads back the field of the coins slice it is named after. */
  lemma SelectorsReadSlice(entities: Dict<Coin>, loading: bool, error: Option<string>, lastUpdated: Option<int>)
    ensures var state := RootState(MarketState(entities, loading, error, lastUpdated));
      && SelectCoins(state) == entities
      && SelectCoinsLoading(state) == loading
      && SelectCoinsError(state) == error
      && SelectCoinsLastUpdated(state) == lastUpdated
  {
  }

  /** After a fulfilled fetch the selectors see the new snapshot, settled and stamped. */
  lemma SelectAfterFulfilled(state: RootState, p: Dict<Coin>, now: int)
    ensures var next := RootState(Reduce(state.coins, Fulfilled(p), now));
      && SelectCoins(next) == p
      && !SelectCoinsLoading(next)
      && SelectCoinsLastUpdated(next) == Some(now)
      && SelectCoinsError(next) == SelectCoinsError(state)
  {
  }

  /** While a fetch is pending the selectors still see the previous snapshot, without error. */
  lemma SelectWhilePending(state: RootState, now: int)
    ensures var next := RootState(Reduce(state.coins, Pending, now));
      && SelectCoins(next) == SelectCoins(state)
      && SelectCoinsLoading(next)
      && SelectCoinsError(next) == None
      && SelectCoinsLastUpdated(next) == SelectCoinsLastUpdated(state)
  {
  }

  /** After a failed fetch the selectors see the stale snapshot and the error. */
  lemma SelectAfterRejected(state: RootState, e: string, now: int)
    ensures var next := RootState(Reduce(state.coins, Rejected(e), now));
      && SelectCoins(next) == SelectCoins(state)
      && !SelectCoinsLoading(next)
      && SelectCoinsError(next) == Some(e)
      && SelectCoinsLastUpdated(next) == SelectCoinsLastUpdated(state)
  {
  }
}
