/**
 * The portfolio slice (`src/state/portfolio/slice.js`): the amount of each
 * coin the user holds, keyed by coin id.
 */
module PortfolioSlice {
  import opened Wrappers
  import opened JsObject

  /** Writing the same id twice keeps the second amount, not the sum. */
  lemma SetHoldingOverwrites(holdings: Dict<real>, coinId: string, first: real, second: real)
    ensures Set(Set(holdings, coinId, first), coinId, second) == Set(holdings, coinId, second)
    ensures Get(Set(Set(holdings, coinId, first), coinId, second), coinId) == Some(second)
  {
    SetTwice(holdings, coinId, first, second);
  }

  /** Adding a holding for a new id and then removing it gives back the holdings before. */
  lemma SetThenRemoveRestores(holdings: Dict<real>, coinId: string, amount: real)
    requires coinId !in holdings.entries
    ensures Delete(Set(holdings, coinId, amount), coinId) == holdings
  {
    SetThenDelete(holdings, coinId, amount);
  }

  /** The store object whose `holdings` object the reducers update in place. */
  class PortfolioStore {
    var holdings: Dict<real>

    constructor ()
      ensures holdings == Empty() && holdings.keys == []
    {
      holdings := Empty();
    }

    /** `holdings[coinId] = amount`, overwriting any previous amount. */
    method SetHolding(coinId: string, amount: real)
      modifies this
      ensures holdings == Set(old(holdings), coinId, amount)
      ensures Get(holdings, coinId) == Some(amount)
      ensures forall k :: k != coinId ==> Get(holdings, k) == Get(old(holdings), k)
    {
      holdings := Set(holdings, coinId, amount);
    }

    /** `delete holdings[coinId]`; nothing happens when the id is absent. */
    method RemoveHolding(coinId: string)
      modifies this
      ensures holdings == Delete(old(holdings), coinId)
      ensures Get(holdings, coinId) == None
      ensures forall k :: k != coinId ==> Get(holdings, k) == Get(old(holdings), k)
      ensures coinId !in old(holdings.entries) ==> holdings == old(holdings)
    {
      holdings := Delete(holdings, coinId);
    }
  }
}
