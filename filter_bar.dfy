/**
 * The listing's filter bar: the filter record, its single-field updates,
 * the "Hide Ended" checkbox and the category options, with the record
 * handed to the parent through `onFilterChange`.
 */
module FilterBar {
  import opened Schema

  /** The filter record; every field is the raw text of its control. */
  datatype Filters = Filters(
    search: string,
    category: string,
    minPrice: string,
    maxPrice: string,
    sort: string,
    status: string)

  const InitialFilters: Filters := Filters("", "All", "", "", "newest", "")

  datatype FilterKey = SearchKey | CategoryKey | MinPriceKey | MaxPriceKey | SortKey | StatusKey

  function Get(f: Filters, k: FilterKey): string {
    match k
    case SearchKey => f.search
    case CategoryKey => f.category
    case MinPriceKey => f.minPrice
    case MaxPriceKey => f.maxPrice
    case SortKey => f.sort
    case StatusKey => f.status
  }

  /** `{ ...filters, [key]: value }`: the record with one field replaced. */
  function With(f: Filters, k: FilterKey, v: string): (r: Filters)
    ensures Get(r, k) == v
    ensures forall k' :: k' != k ==> Get(r, k') == Get(f, k')
  {
    match k
    case SearchKey => f.(search := v)
    case CategoryKey => f.(category := v)
    case MinPriceKey => f.(minPrice := v)
    case MaxPriceKey => f.(maxPrice := v)
    case SortKey => f.(sort := v)
    case StatusKey => f.(status := v)
  }

  /** Writing back a field's own value changes nothing, and a second write to
      the same field overrides the first. */
  lemma WithLaws(f: Filters, k: FilterKey, v: string, w: string)
    ensures With(f, k, Get(f, k)) == f
    ensures With(With(f, k, v), k, w) == With(f, k, w)
  {
  }

  /** The status filter the "Hide Ended" checkbox asks for. */
  function HideEndedStatus(checked: bool): (s: string)
    ensures checked ==> s == StatusName(Active)
    ensures !checked ==> s == ""
  {
    if checked then "active" else ""
  }

  /** The options of the category select. */
  const CategoryOptions: seq<string> :=
    ["All", "Electronics", "Fashion", "Home", "Art", "Vehicles", "Collectibles", "Other"]

  /** The options are "All" followed by the schema's categories, in the schema's order. */
  lemma CategoryOptionsMatchSchema()
    ensures |CategoryOptions| == |AllCategories| + 1 && CategoryOptions[0] == "All"
    ensures forall i :: 0 <= i < |AllCategories| ==> CategoryOptions[i + 1] == CategoryName(AllCategories[i])
    ensures forall i :: 1 <= i < |CategoryOptions| ==> ParseCategory(CategoryOptions[i]).Some?
  {
  }

  /** The component's state: the record, the checkbox, and the records passed to `onFilterChange`. */
  class FilterPanel {
    var filters: Filters
    var hideEnded: bool
    var notified: seq<Filters>

    constructor ()
      ensures filters == InitialFilters && !hideEnded && notified == []
    {
      filters := InitialFilters;
      hideEnded := false;
      notified := [];
    }

    /** A select or price input changed; every key but the search notifies the parent at once. */
    method HandleChange(key: FilterKey, value: string)
      modifies this
      ensures filters == With(old(filters), key, value)
      ensures notified == old(notified) + (if key == SearchKey then [] else [filters])
      ensures hideEnded == old(hideEnded)
    {
      var newFilters := With(filters, key, value);
      filters := newFilters;
      if key != SearchKey {
        notified := notified + [newFilters];
      }
    }

    /** The "Hide Ended" checkbox. */
    method ToggleHideEnded(isChecked: bool)
      modifies this
      ensures hideEnded == isChecked
      ensures filters == With(old(filters), StatusKey, HideEndedStatus(isChecked))
      ensures notified == old(notified) + [filters]
    {
      hideEnded := isChecked;
      HandleChange(StatusKey, if isChecked then "active" else "");
    }

    /** The search box: only the search text changes; the parent hears of it after the debounce. */
    method HandleSearch(val: string)
      modifies this
      ensures filters == With(old(filters), SearchKey, val)
      ensures notified == old(notified) && hideEnded == old(hideEnded)
    {
      filters := filters.(search := val);
    }
  }
}
