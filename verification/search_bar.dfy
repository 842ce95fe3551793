/** `SearchBar`: the search-filter state, its updates, the submit dispatch and the price label. */
module SearchBar {
  import opened Common
  import opened Sequences

  /** A slider's `[low, high]` pair. */
  datatype Range = Range(lo: real, hi: real)

  /** `SearchFilters`. */
  datatype Filters = Filters(priceRange: Range, bedrooms: Range, bathrooms: Range, homeType: seq<string>)

  /** The four home types the checkboxes offer, in display order. */
  const HomeTypes: seq<string> := ["house", "condo", "townhouse", "apartment"]

  /** The filters a bar starts with when none are given, and that reset restores. */
  const DefaultFilters: Filters :=
    Filters(Range(200000.0, 1000000.0), Range(1.0, 5.0), Range(1.0, 4.0), HomeTypes)

  /** `initialFilters || defaults`. */
  function InitialFilters(given: Option<Filters>): (f: Filters)
    ensures given.Some? ==> f == given.value
    ensures given.None? ==> f == DefaultFilters
  {
    match given
    case Some(g) => g
    case None => DefaultFilters
  }

  /** `resetFilters`: every slider back to its default range and every home type ticked. */
  function ResetFilters(f: Filters): (r: Filters)
    ensures r.priceRange == Range(200000.0, 1000000.0)
    ensures r.bedrooms == Range(1.0, 5.0) && r.bathrooms == Range(1.0, 4.0)
    ensures forall t :: t in r.homeType <==> t in HomeTypes
    ensures r == InitialFilters(None)
  {
    DefaultFilters
  }

  /** One `handleFilterChange(key, value)` call, the key and its value together. */
  datatype FilterChange =
    | SetPriceRange(range: Range)
    | SetBedrooms(range: Range)
    | SetBathrooms(range: Range)
    | SetHomeType(types: seq<string>)

  /** `setFilters(prev => ({ ...prev, [key]: value }))`. */
  function ApplyChange(f: Filters, c: FilterChange): (r: Filters)
    ensures c.SetPriceRange? ==> r.priceRange == c.range
    ensures c.SetBedrooms? ==> r.bedrooms == c.range
    ensures c.SetBathrooms? ==> r.bathrooms == c.range
    ensures c.SetHomeType? ==> r.homeType == c.types
  {
    match c
    case SetPriceRange(v) => f.(priceRange := v)
    case SetBedrooms(v) => f.(bedrooms := v)
    case SetBathrooms(v) => f.(bathrooms := v)
    case SetHomeType(v) => f.(homeType := v)
  }

  /** A change leaves the other three fields as they were. */
  lemma ChangeTouchesOnlyItsKey(f: Filters, c: FilterChange)
    ensures !c.SetPriceRange? ==> ApplyChange(f, c).priceRange == f.priceRange
    ensures !c.SetBedrooms? ==> ApplyChange(f, c).bedrooms == f.bedrooms
    ensures !c.SetBathrooms? ==> ApplyChange(f, c).bathrooms == f.bathrooms
    ensures !c.SetHomeType? ==> ApplyChange(f, c).homeType == f.homeType
  {
  }

  /** A checkbox is ticked when its type is in the list. */
  predicate Checked(f: Filters, t: string) {
    t in f.homeType
  }

  /** Ticking a type appends it to the end of the list. */
  function Check(f: Filters, t: string): (r: Filters)
    ensures r.homeType == f.homeType + [t]
    ensures Checked(r, t)
    ensures r.priceRange == f.priceRange && r.bedrooms == f.bedrooms && r.bathrooms == f.bathrooms
  {
    ApplyChange(f, SetHomeType(f.homeType + [t]))
  }

  /** Unticking a type removes every occurrence of it and keeps the others in order. */
  function Uncheck(f: Filters, t: string): (r: Filters)
    ensures !Checked(r, t)
    ensures IsSubseq(r.homeType, f.homeType)
    ensures forall u :: u != t ==> (u in r.homeType <==> u in f.homeType)
    ensures forall u :: multiset(r.homeType)[u] == if u == t then 0 else multiset(f.homeType)[u]
    ensures r.priceRange == f.priceRange && r.bedrooms == f.bedrooms && r.bathrooms == f.bathrooms
  {
    ApplyChange(f, SetHomeType(RemoveAll(f.homeType, t)))
  }

  /** Ticking an unticked box and unticking it again restores the filters exactly. */
  lemma CheckUncheckRestores(f: Filters, t: string)
    requires !Checked(f, t)
    ensures Uncheck(Check(f, t), t) == f
  {
    RemoveAllAppendAbsent(f.homeType, t);
  }

  /** The `onSearch` call a submit makes: the query, with the filters when the bar shows them. */
  datatype SearchCall = SearchCall(query: string, filters: Option<Filters>)

  /** `handleSubmit`. */
  function HandleSubmit(query: string, f: Filters, showFilters: bool): (c: SearchCall)
    ensures c.query == query
    ensures c.filters.Some? <==> showFilters
    ensures c.filters.Some? ==> c.filters.value == f
  {
    if showFilters then SearchCall(query, Some(f)) else SearchCall(query, None)
  }

  /** The call a submit makes determines what the user entered: the query always, and the
      filters exactly when they are shown; hidden filters make no difference to the call. */
  lemma SubmitDeterminesInput(q1: string, q2: string, f: Filters, g: Filters, showFilters: bool)
    ensures HandleSubmit(q1, f, showFilters) == HandleSubmit(q2, g, showFilters)
            <==> q1 == q2 && (!showFilters || f == g)
  {
    if HandleSubmit(q1, f, showFilters) == HandleSubmit(q2, g, showFilters) {
      assert HandleSubmit(q1, f, showFilters).query == q1;
      assert showFilters ==> HandleSubmit(q1, f, showFilters).filters == Some(f);
    }
  }

  /** The unit `formatPrice` shows and the scaled amount before `toFixed` rounding. */
  datatype PriceLabel = Millions(amount: real) | Thousands(amount: real)

  /** `formatPrice`: millions from 1,000,000 up, thousands below. */
  function FormatPrice(value: real): (l: PriceLabel)
    ensures l.Millions? <==> value >= 1000000.0
    ensures l.Millions? ==> l.amount * 1000000.0 == value && l.amount >= 1.0
    ensures l.Thousands? ==> l.amount * 1000.0 == value && l.amount < 1000.0
  {
    if value >= 1000000.0 then Millions(value / 1000000.0) else Thousands(value / 1000.0)
  }
}
