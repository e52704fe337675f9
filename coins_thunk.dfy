/**
 * The `fetchCoins` thunk (`src/state/coins/thunk.js`): announce the fetch,
 * then either normalise the markets list into an object keyed by coin id and
 * store it, or store the failure. The HTTP request is not modelled: its
 * outcome is the `response` argument.
 */
module CoinsThunk {
  import opened Wrappers
  import opened JsObject
  import opened CoinsSlice

  /**
   * What the markets request produced: the list of coin records, or a failure
   * carrying the server's response body (absent for a transport failure) and
   * the error's message.
   */
  datatype MarketsResponse =
    | Success(data: seq<Coin>)
    | Failure(responseData: Option<string>, message: string)

  /** The ids that occur in a markets list. */
  function Ids(coins: seq<Coin>): set<string> {
    set c | c in coins :: c.id
  }

  /**
   * The object `coinsById` after the loop has visited `coins` in order:
   * each record is assigned under its id, so a later duplicate overwrites an
   * earlier one in place.
   */
  function Normalize(coins: seq<Coin>): (r: Dict<Coin>)
    ensures |r.keys| <= |coins|
  {
    if coins == [] then Empty()
    else
      var last := coins[|coins| - 1];
      Set(Normalize(coins[..|coins| - 1]), last.id, last)
  }

  /** The key set is exactly the set of ids in the list; an empty list gives `{}`. */
  lemma {:induction false} NormalizeKeys(coins: seq<Coin>)
    ensures Normalize(coins).entries.Keys == Ids(coins)
    ensures Normalize(coins).keys == [] <==> coins == []
  {
    if coins != [] {
      var init, last := coins[..|coins| - 1], coins[|coins| - 1];
      assert Ids(coins) == Ids(init) + {last.id} by {
        assert coins == init + [last];
      }
      NormalizeKeys(init);
      assert Normalize(coins) == Set(Normalize(init), last.id, last);
    }
  }

  /** Under every key sits a record with that id. */
  lemma {:induction false} NormalizeIdsMatch(coins: seq<Coin>)
    ensures forall k :: k in Normalize(coins).entries ==> Normalize(coins).entries[k].id == k
  {
    if coins != [] {
      NormalizeIdsMatch(coins[..|coins| - 1]);
    }
  }

  /** With duplicate ids, the record stored is the last one with that id. */
  lemma {:induction false} NormalizeLastWins(coins: seq<Coin>, i: int)
    requires 0 <= i < |coins|
    requires forall j :: i < j < |coins| ==> coins[j].id != coins[i].id
    ensures Get(Normalize(coins), coins[i].id) == Some(coins[i])
  {
    var n := |coins|;
    if i < n - 1 {
      var init := coins[..n - 1];
      assert init[i] == coins[i];
      assert forall j :: i < j < |init| ==> init[j] == coins[j];
      NormalizeLastWins(init, i);
    }
  }

  /** Without duplicates nothing is lost: `Object.values` gives back the list in its order. */
  lemma {:induction false} NormalizeDistinct(coins: seq<Coin>)
    requires forall i, j :: 0 <= i < j < |coins| ==> coins[i].id != coins[j].id
    ensures Values(Normalize(coins)) == coins
    ensures |Normalize(coins).keys| == |coins|
  {
    if coins != [] {
      var n := |coins|;
      var init, last := coins[..n - 1], coins[n - 1];
      assert coins == init + [last];
      assert forall i, j :: 0 <= i < j < |init| ==> init[i].id != init[j].id by {
        forall i, j | 0 <= i < j < |init| ensures init[i].id != init[j].id {
          assert init[i] == coins[i] && init[j] == coins[j];
        }
      }
      NormalizeDistinct(init);
      assert last.id !in Normalize(init).entries by {
        forall i | 0 <= i < |init| ensures init[i].id != last.id {
          assert init[i] == coins[i];
        }
        NormalizeWithoutId(init, last.id);
      }
      var d := Normalize(init);
      assert Normalize(coins) == Set(d, last.id, last);
      ValuesOfNewKey(d, last.id, last);
      assert Values(Normalize(coins)) == init + [last];
    }
  }

  /** A key that no record carries is never assigned. */
  lemma {:induction false} NormalizeWithoutId(coins: seq<Coin>, k: string)
    requires forall i :: 0 <= i < |coins| ==> coins[i].id != k
    ensures k !in Normalize(coins).entries
  {
    if coins != [] {
      NormalizeWithoutId(coins[..|coins| - 1], k);
    }
  }

  /** The `forEach` loop that builds `coinsById`. */
  method NormalizeById(data: seq<Coin>) returns (coinsById: Dict<Coin>)
    ensures coinsById == Normalize(data)
  {
    coinsById := Empty();
    var i := 0;
    while i < |data|
      invariant 0 <= i <= |data|
      invariant coinsById == Normalize(data[..i])
    {
      assert data[..i + 1][..i] == data[..i];
      coinsById := Set(coinsById, data[i].id, data[i]);
      i := i + 1;
    }
    assert data[..|data|] == data;
  }

  /**
   * The rejection payload `error.response?.data || error.message`: the
   * response body when there is a non-empty one, the error message otherwise.
   */
  function RejectionPayload(responseData: Option<string>, message: string): (r: string)
    ensures responseData.Some? && responseData.value != "" ==> r == responseData.value
    ensures responseData == None || responseData == Some("") ==> r == message
  {
    match responseData
    case Some(body) => if body != "" then body else message
    case None => message
  }

  /** The actions the thunk dispatches for a given outcome of the request. */
  function FetchActions(response: MarketsResponse): (r: seq<CoinsAction>)
    ensures |r| == 2 && r[0] == Pending
    ensures response.Success? ==> r[1] == Fulfilled(Normalize(response.data))
    ensures response.Failure? ==>
      r[1] == Rejected(RejectionPayload(response.responseData, response.message))
  {
    match response
    case Success(data) => [Pending, Fulfilled(Normalize(data))]
    case Failure(body, message) => [Pending, Rejected(RejectionPayload(body, message))]
  }

  /**
   * Running the thunk against a store: pending first, then exactly one of
   * fulfilled or rejected. `now` is the clock reading at fulfilment.
   */
  method FetchCoins(store: MarketStore, response: MarketsResponse, now: int)
    returns (dispatched: seq<CoinsAction>)
    modifies store
    ensures dispatched == FetchActions(response)
    ensures store.State() == ReduceAll(old(store.State()), dispatched, now)
  {
    ghost var s0 := store.State();
    store.Dispatch(Pending, now);
    var second: CoinsAction;
    match response {
      case Success(data) =>
        var coinsById := NormalizeById(data);
        second := Fulfilled(coinsById);
      case Failure(body, message) =>
        second := Rejected(RejectionPayload(body, message));
    }
    store.Dispatch(second, now);
    dispatched := [Pending, second];
    assert dispatched[1..] == [second] && [second][1..] == [];
    var s1 := Reduce(s0, Pending, now);
    assert ReduceAll(s0, dispatched, now) == ReduceAll(s1, [second], now);
    assert ReduceAll(s1, [second], now) == ReduceAll(Reduce(s1, second, now), [], now);
  }

  /**
   * What one fetch leaves in the store, from any starting state: on success a
   * settled store holding the normalised list and stamped with `now`; on
   * failure a settled store flagged with the payload and its old snapshot.
   */
  lemma FetchOutcome(s: MarketState, response: MarketsResponse, now: int)
    ensures var r := ReduceAll(s, FetchActions(response), now);
      && !r.loading
      && (response.Success? ==>
            r.entities == Normalize(response.data) && r.error == None && r.lastUpdated == Some(now))
      && (response.Failure? ==>
            && r.error == Some(RejectionPayload(response.responseData, response.message))
            && r.entities == s.entities && r.lastUpdated == s.lastUpdated)
  {
    match response {
      case Success(data) => PendingThenFulfilled(s, Normalize(data), now);
      case Failure(body, message) => PendingThenRejected(s, RejectionPayload(body, message), now);
    }
  }
}
