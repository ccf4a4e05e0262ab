/** `useLocationSearch`: the search box's state cells (`query`, `isOpen`,
    `selectedLocation`) and the results derived from the query. The district list,
    the collation of full names (`localeCompare(…, 'ko') <= 0`) and whether an
    `onSelect` callback was given are fixed when the hook is made; the callback's
    invocations are recorded in `notified`. */
module LocationSearch {
  import opened Wrappers
  import opened JsText
  import opened KoreaDistricts

  /** The `limit` the hook passes to `searchLocations`. */
  const ResultLimit: int := 20

  class LocationSearchHook {
    const data: seq<string>
    const before: (string, string) -> bool
    const hasOnSelect: bool
    var query: string
    var isOpen: bool
    var selected: Option<ParsedLocation>
    /** The locations handed to `onSelect`, oldest first. */
    var notified: seq<ParsedLocation>

    constructor (data: seq<string>, before: (string, string) -> bool, hasOnSelect: bool)
      ensures this.data == data && this.before == before && this.hasOnSelect == hasOnSelect
      ensures query == "" && !isOpen && selected.None? && notified == []
    {
      this.data := data;
      this.before := before;
      this.hasOnSelect := hasOnSelect;
      query := "";
      isOpen := false;
      selected := None;
      notified := [];
    }

    /** `results`: nothing for a blank query, else at most twenty matches of it,
        sorted by rank and then by the collation. */
    function Results(): (r: seq<ParsedLocation>)
      reads this
      ensures AllSpace(query) ==> r == []
      ensures |r| <= ResultLimit
      ensures !AllSpace(query) ==> multiset(r) == multiset(FirstMatches(data, query, ResultLimit))
      ensures forall k | 0 <= k < |r| :: Matches(r[k].fullName, NormalizedQuery(query))
      ensures TotalPreorder(before) ==> SortedBy(r, SearchOrder(NormalizedQuery(query), before))
    {
      if |Trim(query)| == 0 then [] else SearchLocations(data, query, ResultLimit, before)
    }

    /** `setQuery`. */
    method SetQuery(text: string)
      modifies this
      ensures query == text && isOpen == old(isOpen) && selected == old(selected) && notified == old(notified)
    {
      query := text;
    }

    /** `setIsOpen`. */
    method SetIsOpen(open: bool)
      modifies this
      ensures isOpen == open && query == old(query) && selected == old(selected) && notified == old(notified)
    {
      isOpen := open;
    }

    /** `selectLocation(location)`: the location is selected, its display name fills
        the box, the list closes and `onSelect` (when given) receives it once. */
    method SelectLocation(location: ParsedLocation)
      modifies this
      ensures selected == Some(location) && query == location.displayName && !isOpen
      ensures notified == old(notified) + (if hasOnSelect then [location] else [])
    {
      selected := Some(location);
      query := location.displayName;
      isOpen := false;
      if hasOnSelect {
        notified := notified + [location];
      }
    }

    /** `clearSelection()`: back to the initial state, with no results. */
    method ClearSelection()
      modifies this
      ensures selected.None? && query == "" && !isOpen && notified == old(notified)
      ensures Results() == []
    {
      selected := None;
      query := "";
      isOpen := false;
    }
  }
}
