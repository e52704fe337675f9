/**
 * The search slice (`src/state/search/slice.js`): the query text and the
 * table filter of the dashboard.
 */
module SearchSlice {
  import opened Wrappers

  /**
   * The filter object. Only `top == 10` and the strings "all" and "positive"
   * are tested by the dashboard; every other value is stored as given.
   */
  datatype Filter = Filter(top: int, priceChange: string)

  /** The payload of `setFilter`: an object literal that may leave either key out. */
  datatype FilterPatch = FilterPatch(top: Option<int>, priceChange: Option<string>)

  function InitialFilter(): (f: Filter)
    ensures f.top == 10 && f.priceChange == "all"
  {
    Filter(10, "all")
  }

  /** `{ ...filter, ...patch }`: the keys the patch carries win, the others are kept. */
  function Merge(filter: Filter, patch: FilterPatch): (r: Filter)
    ensures r.top == patch.top.GetOr(filter.top)
    ensures r.priceChange == patch.priceChange.GetOr(filter.priceChange)
  {
    Filter(patch.top.GetOr(filter.top), patch.priceChange.GetOr(filter.priceChange))
  }

  /** The patch `{ ...first, ...second }`. */
  function Combine(first: FilterPatch, second: FilterPatch): FilterPatch {
    FilterPatch(
      if second.top.Some? then second.top else first.top,
      if second.priceChange.Some? then second.priceChange else first.priceChange)
  }

  /** Merging `{}` leaves the filter as it was. */
  lemma MergeEmpty(filter: Filter)
    ensures Merge(filter, FilterPatch(None, None)) == filter
  {
  }

  /** Setting only `top` keeps `priceChange`, and the other way round. */
  lemma MergeOneKey(filter: Filter, top: int, priceChange: string)
    ensures Merge(filter, FilterPatch(Some(top), None)) == Filter(top, filter.priceChange)
    ensures Merge(filter, FilterPatch(None, Some(priceChange))) == Filter(filter.top, priceChange)
  {
  }

  /**
   * Two successive merges amount to one merge of the combined patch: keys
   * set by different patches accumulate, and on a shared key the later wins.
   */
  lemma MergeAccumulates(filter: Filter, first: FilterPatch, second: FilterPatch)
    ensures Merge(Merge(filter, first), second) == Merge(filter, Combine(first, second))
    ensures first.top.Some? && second.priceChange.Some? && second.top.None? ==>
      Merge(Merge(filter, first), second) == Filter(first.top.value, second.priceChange.value)
  {
  }

  /** The store object whose fields the reducers assign in place. */
  class SearchStore {
    var query: string
    var filter: Filter

    constructor ()
      ensures query == "" && filter == InitialFilter()
    {
      query := "";
      filter := InitialFilter();
    }

    /** Stores the text verbatim; case is only folded when matching. */
    method SetQuery(text: string)
      modifies this
      ensures query == text && filter == old(filter)
    {
      query := text;
    }

    method SetFilter(patch: FilterPatch)
      modifies this
      ensures filter == Merge(old(filter), patch) && query == old(query)
    {
      filter := Merge(filter, patch);
    }
  }
}
