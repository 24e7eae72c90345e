/**
 * The filter panel (src/components/feed/FeedFilters.tsx): the record of raw
 * filter inputs, the one-field update every input's change handler performs,
 * and the category choices with their `'all'` sentinel.
 */
module Filters {

  /** `FilterValues`: the four inputs as the user typed or chose them. */
  datatype FilterValues = FilterValues(search: string, category: string, minPrice: string, maxPrice: string)

  /** `keyof FilterValues`. */
  datatype FilterKey = Search | Category | MinPrice | MaxPrice

  function Field(v: FilterValues, k: FilterKey): string {
    match k
    case Search => v.search
    case Category => v.category
    case MinPrice => v.minPrice
    case MaxPrice => v.maxPrice
  }

  /**
   * `handleFilterChange(key, value)`: the record handed to `onFiltersChange`, a
   * copy of `filters` with field `key` replaced; `filters` itself is a value
   * and stays as it was.
   */
  function HandleFilterChange(filters: FilterValues, key: FilterKey, value: string): (r: FilterValues)
    ensures Field(r, key) == value
    ensures forall k :: k != key ==> Field(r, k) == Field(filters, k)
  {
    match key
    case Search => filters.(search := value)
    case Category => filters.(category := value)
    case MinPrice => filters.(minPrice := value)
    case MaxPrice => filters.(maxPrice := value)
  }

  /** Two records that agree on every field are the same record. */
  lemma FieldsDetermineRecord(a: FilterValues, b: FilterValues)
    requires forall k :: Field(a, k) == Field(b, k)
    ensures a == b
  {
    assert Field(a, Search) == Field(b, Search);
    assert Field(a, Category) == Field(b, Category);
    assert Field(a, MinPrice) == Field(b, MinPrice);
    assert Field(a, MaxPrice) == Field(b, MaxPrice);
  }

  /** Making the same edit twice gives the record one edit gives. */
  lemma ChangeIsIdempotent(filters: FilterValues, key: FilterKey, value: string)
    ensures HandleFilterChange(HandleFilterChange(filters, key, value), key, value) == HandleFilterChange(filters, key, value)
  {
    var once := HandleFilterChange(filters, key, value);
    FieldsDetermineRecord(HandleFilterChange(once, key, value), once);
  }

  /** Re-entering the value a field already holds emits an equal record. */
  lemma ChangeToCurrentValueIsIdentity(filters: FilterValues, key: FilterKey)
    ensures HandleFilterChange(filters, key, Field(filters, key)) == filters
  {
    FieldsDetermineRecord(HandleFilterChange(filters, key, Field(filters, key)), filters);
  }

  /** Edits of two different fields can be made in either order. */
  lemma ChangesOfDifferentFieldsCommute(filters: FilterValues, k1: FilterKey, v1: string, k2: FilterKey, v2: string)
    requires k1 != k2
    ensures HandleFilterChange(HandleFilterChange(filters, k1, v1), k2, v2) ==
            HandleFilterChange(HandleFilterChange(filters, k2, v2), k1, v1)
  {
    FieldsDetermineRecord(HandleFilterChange(HandleFilterChange(filters, k1, v1), k2, v2),
                          HandleFilterChange(HandleFilterChange(filters, k2, v2), k1, v1));
  }

  /** An entry of the category select: the value stored in the filter and the caption shown. */
  datatype CategoryOption = CategoryOption(value: string, caption: string)

  /** `CATEGORIES`. */
  const Categories: seq<CategoryOption> := [
    CategoryOption("all", "All Categories"),
    CategoryOption("Tops", "Tops"),
    CategoryOption("Bottoms", "Bottoms"),
    CategoryOption("Dresses", "Dresses"),
    CategoryOption("Outerwear", "Outerwear"),
    CategoryOption("Activewear", "Activewear"),
    CategoryOption("Shoes", "Shoes"),
    CategoryOption("Accessories", "Accessories")
  ]

  /** The select's values are distinct, so each is a usable item key, and `'all'` is the first of them. */
  lemma CategoryValuesDistinct()
    ensures forall i, j :: 0 <= i < j < |Categories| ==> Categories[i].value != Categories[j].value
    ensures Categories[0].value == "all"
  {
  }

  /** Picking an entry of the category select stores that entry's value and nothing else. */
  function SelectCategory(filters: FilterValues, choice: nat): (r: FilterValues)
    requires choice < |Categories|
    ensures r.category == Categories[choice].value
    ensures r.search == filters.search && r.minPrice == filters.minPrice && r.maxPrice == filters.maxPrice
  {
    HandleFilterChange(filters, Category, Categories[choice].value)
  }
}
