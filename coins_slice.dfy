/**
 * The market store: the latest snapshot of coin records keyed by id, plus the
 * status of the fetch that produces it (`src/state/coins/slice.js`).
 */
module CoinsSlice {
  import opened Wrappers
  import opened JsObject

  /** One record of the markets list, with the fields the state layer and pages read. */
  datatype Coin = Coin(
    id: string,
    symbol: string,
    name: string,
    image: string,
    currentPrice: real,
    marketCap: real,
    marketCapRank: int,
    priceChangePercentage24h: Option<real>)

  /**
   * The coins slice. `error` is the rejection payload (`null` while there is
   * none); `lastUpdated` is the clock reading of the last fulfilled fetch.
   */
  datatype MarketState = MarketState(
    entities: Dict<Coin>,
    loading: bool,
    error: Option<string>,
    lastUpdated: Option<int>)

  /** The three actions of the slice, with their payloads. */
  datatype CoinsAction =
    | Pending
    | Fulfilled(coinsById: Dict<Coin>)
    | Rejected(payload: string)

  /** The slice's initial state. */
  function InitialState(): (s: MarketState)
    ensures s.entities == Empty() && Values(s.entities) == []
    ensures !s.loading && s.error == None && s.lastUpdated == None
  {
    MarketState(Empty(), false, None, None)
  }

  /**
   * The slice reducer. `now` is the clock reading that the fulfilled case
   * stamps into `lastUpdated`; the other cases ignore it.
   */
  function Reduce(s: MarketState, action: CoinsAction, now: int): (r: MarketState)
    ensures action.Pending? ==>
      r.loading && r.error == None && r.entities == s.entities && r.lastUpdated == s.lastUpdated
    ensures action.Fulfilled? ==>
      r.entities == action.coinsById && !r.loading && r.lastUpdated == Some(now) && r.error == s.error
    ensures action.Rejected? ==>
      !r.loading && r.error == Some(action.payload) && r.entities == s.entities && r.lastUpdated == s.lastUpdated
  {
    match action
    case Pending => s.(loading := true, error := None)
    case Fulfilled(p) => s.(entities := p, loading := false, lastUpdated := Some(now))
    case Rejected(e) => s.(loading := false, error := Some(e))
  }

  /** Dispatching several actions in order, all at clock reading `now`. */
  function ReduceAll(s: MarketState, actions: seq<CoinsAction>, now: int): MarketState
    decreases |actions|
  {
    if actions == [] then s else ReduceAll(Reduce(s, actions[0], now), actions[1..], now)
  }

  /**
   * The market state's invariant: a store that is still loading has no error.
   * Pending clears the error as it starts loading, and both settling actions
   * stop loading, so every run of actions keeps it.
   */
  lemma {:induction false} LoadingHasNoError(s: MarketState, actions: seq<CoinsAction>, now: int)
    requires s.loading ==> s.error == None
    ensures var r := ReduceAll(s, actions, now); r.loading ==> r.error == None
    decreases |actions|
  {
    if actions != [] {
      LoadingHasNoError(Reduce(s, actions[0], now), actions[1..], now);
    }
  }

  /** Pending a second time changes nothing. */
  lemma PendingIdempotent(s: MarketState, now: int, later: int)
    ensures Reduce(Reduce(s, Pending, now), Pending, later) == Reduce(s, Pending, now)
  {
  }

  /** Fulfilled replaces the entities outright: what was there before leaves no trace. */
  lemma FulfilledDoesNotMerge(s1: MarketState, s2: MarketState, p: Dict<Coin>, now: int)
    ensures Reduce(s1, Fulfilled(p), now).entities == Reduce(s2, Fulfilled(p), now).entities == p
    ensures Reduce(s1, Fulfilled(p), now).lastUpdated != None
  {
  }

  /** A pending fetch followed by its success leaves a settled, error-free store holding p. */
  lemma PendingThenFulfilled(s: MarketState, p: Dict<Coin>, now: int)
    ensures ReduceAll(s, [Pending, Fulfilled(p)], now)
         == MarketState(p, false, None, Some(now))
  {
    assert [Pending, Fulfilled(p)][1..] == [Fulfilled(p)];
    assert [Fulfilled(p)][1..] == [];
    var s1 := Reduce(s, Pending, now);
    assert ReduceAll(s, [Pending, Fulfilled(p)], now) == ReduceAll(s1, [Fulfilled(p)], now);
    assert ReduceAll(s1, [Fulfilled(p)], now) == ReduceAll(Reduce(s1, Fulfilled(p), now), [], now);
  }

  /** A pending fetch followed by its failure keeps the stale snapshot and its time. */
  lemma PendingThenRejected(s: MarketState, e: string, now: int)
    ensures ReduceAll(s, [Pending, Rejected(e)], now)
         == MarketState(s.entities, false, Some(e), s.lastUpdated)
  {
    assert [Pending, Rejected(e)][1..] == [Rejected(e)];
    assert [Rejected(e)][1..] == [];
    var s1 := Reduce(s, Pending, now);
    assert ReduceAll(s, [Pending, Rejected(e)], now) == ReduceAll(s1, [Rejected(e)], now);
    assert ReduceAll(s1, [Rejected(e)], now) == ReduceAll(Reduce(s1, Rejected(e), now), [], now);
  }

  /** The store object whose fields the reducers assign in place. */
  class MarketStore {
    var entities: Dict<Coin>
    var loading: bool
    var error: Option<string>
    var lastUpdated: Option<int>

    function State(): MarketState
      reads this
    {
      MarketState(entities, loading, error, lastUpdated)
    }

    constructor ()
      ensures State() == InitialState()
    {
      entities, loading, error, lastUpdated := Empty(), false, None, None;
    }

    method FetchCoinsPending()
      modifies this
      ensures loading && error == None
      ensures entities == old(entities) && lastUpdated == old(lastUpdated)
    {
      loading := true;
      error := None;
    }

    method FetchCoinsFulfilled(payload: Dict<Coin>, now: int)
      modifies this
      ensures entities == payload && !loading && lastUpdated == Some(now)
      ensures error == old(error)
    {
      entities := payload;
      loading := false;
      lastUpdated := Some(now);
    }

    method FetchCoinsRejected(payload: string)
      modifies this
      ensures !loading && error == Some(payload)
      ensures entities == old(entities) && lastUpdated == old(lastUpdated)
    {
      loading := false;
      error := Some(payload);
    }

    /** `dispatch(action)`: runs the matching reducer on this store. */
    method Dispatch(action: CoinsAction, now: int)
      modifies this
      ensures State() == Reduce(old(State()), action, now)
    {
      match action
      case Pending => FetchCoinsPending();
      case Fulfilled(p) => FetchCoinsFulfilled(p, now);
      case Rejected(e) => FetchCoinsRejected(e);
    }
  }
}
