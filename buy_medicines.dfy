/**
 * The catalog page: its filter state, the query that turns the catalog and
 * the filter state into the list of cards shown, and the handlers that
 * change the filter state.
 */
module BuyMedicines {
  import opened MedicineData
  import opened MedicineCard
  import opened Seqs
  import opened Text

  /** The sentinel category that disables the category filter. */
  const AllCategories: string := "All Categories"

  /** The category list offered by the page, sentinel first. */
  const Categories: seq<string> := [
    AllCategories, "Pain Relief", "Antibiotics", "Blood Pressure",
    "Allergy", "Digestive Health", "Vitamins"
  ]

  /** The five sort orders; `sortBy` is a free string that selects one. */
  datatype SortMode = Relevance | PriceLow | PriceHigh | Expiry | Newest

  /** The `switch (sortBy)`: the four named keys, and relevance for anything else. */
  function ModeOf(sortBy: string): (mode: SortMode)
    ensures mode == PriceLow <==> sortBy == "price-low"
    ensures mode == PriceHigh <==> sortBy == "price-high"
    ensures mode == Expiry <==> sortBy == "expiry"
    ensures mode == Newest <==> sortBy == "newest"
  {
    if sortBy == "price-low" then PriceLow
    else if sortBy == "price-high" then PriceHigh
    else if sortBy == "expiry" then Expiry
    else if sortBy == "newest" then Newest
    else Relevance
  }

  /** The page's filter state; `priceLo` and `priceHi` are `priceRange[0]` and `priceRange[1]`. */
  datatype Filters = Filters(
    searchTerm: string,
    selectedCategory: string,
    priceLo: real,
    priceHi: real,
    prescriptionOnly: bool,
    nonPrescriptionOnly: bool,
    sortBy: string)

  /** The state the page mounts with, and the state a reset restores. */
  const InitialFilters: Filters := Filters("", AllCategories, 0.0, 20.0, false, false, "relevance")

  /** The price a listing is filtered and sorted by: its discounted price. */
  function Price(m: Medicine): real {
    DiscountedPrice(m.price, m.discountPercentage)
  }

  /** Search: an empty term matches all; otherwise a case-blind substring of the name or the brand. */
  predicate SearchMatches(term: string, m: Medicine) {
    term == "" || Includes(ToLower(m.name), ToLower(term)) || Includes(ToLower(m.brand), ToLower(term))
  }

  /** The search passes exactly when the lowered term occurs in the lowered name or brand. */
  lemma SearchMeans(term: string, m: Medicine)
    ensures SearchMatches(term, m) <==>
              term == "" || Occurs(ToLower(m.name), ToLower(term)) || Occurs(ToLower(m.brand), ToLower(term))
  {
    IncludesIffOccurs(ToLower(m.name), ToLower(term));
    IncludesIffOccurs(ToLower(m.brand), ToLower(term));
  }

  /** Category: the sentinel matches all; otherwise the category must be equal. */
  predicate CategoryMatches(category: string, m: Medicine) {
    category == AllCategories || m.category == category
  }

  /** Price: the discounted price within the inclusive range. */
  predicate PriceMatches(lo: real, hi: real, m: Medicine) {
    lo <= Price(m) <= hi
  }

  /** Prescription: "prescription only" takes precedence over "no prescription only". */
  predicate PrescriptionMatches(prescriptionOnly: bool, nonPrescriptionOnly: bool, m: Medicine) {
    if prescriptionOnly then m.prescription
    else if nonPrescriptionOnly then !m.prescription
    else true
  }

  /** A listing passes every active filter of `f`. */
  predicate Matches(f: Filters, m: Medicine) {
    && SearchMatches(f.searchTerm, m)
    && CategoryMatches(f.selectedCategory, m)
    && PriceMatches(f.priceLo, f.priceHi, m)
    && PrescriptionMatches(f.prescriptionOnly, f.nonPrescriptionOnly, m)
  }

  /**
   * What passing every filter means: a non-empty search term occurs,
   * lower-cased, somewhere in the lower-cased name or brand; the category is
   * the chosen one unless the sentinel is chosen; the discounted price lies
   * in the range; and the prescription flag agrees with whichever box is
   * ticked, "prescription only" first.
   */
  lemma MatchesMeans(f: Filters, m: Medicine)
    ensures Matches(f, m) <==>
      && (|| f.searchTerm == ""
          || Occurs(ToLower(m.name), ToLower(f.searchTerm))
          || Occurs(ToLower(m.brand), ToLower(f.searchTerm)))
      && (f.selectedCategory == AllCategories || m.category == f.selectedCategory)
      && f.priceLo <= Price(m) <= f.priceHi
      && (f.prescriptionOnly ==> m.prescription)
      && (!f.prescriptionOnly && f.nonPrescriptionOnly ==> !m.prescription)
  {
    SearchMeans(f.searchTerm, m);
  }

  function SearchPred(term: string): Medicine -> bool { m => SearchMatches(term, m) }
  function CategoryPred(category: string): Medicine -> bool { m => CategoryMatches(category, m) }
  function PricePred(lo: real, hi: real): Medicine -> bool { m => PriceMatches(lo, hi, m) }
  function PrescriptionPred(want: bool): Medicine -> bool { (m: Medicine) => m.prescription == want }
  function MatchPred(f: Filters): Medicine -> bool { m => Matches(f, m) }

  /** The listings of `catalog` that pass every filter of `f`, in catalog order. */
  function Selected(catalog: seq<Medicine>, f: Filters): (r: seq<Medicine>)
    ensures |r| <= |catalog|
    ensures forall m :: m in r <==> m in catalog && Matches(f, m)
  {
    FilterMembers(catalog, MatchPred(f));
    Filter(catalog, MatchPred(f))
  }

  /** The listings that pass `f` are exactly the catalog's listings that match it. */
  lemma SelectedMembers(catalog: seq<Medicine>, f: Filters)
    ensures forall m :: m in Selected(catalog, f) <==> m in catalog && Matches(f, m)
    ensures IsSubsequence(Selected(catalog, f), catalog)
  {
    FilterMembers(catalog, MatchPred(f));
    FilterIsSubsequence(catalog, MatchPred(f));
  }

  /** The four filters applied one after the other select what `Matches` selects. */
  lemma StagesSelect(s: seq<Medicine>, f: Filters)
    ensures Filter(Filter(Filter(Filter(s, SearchPred(f.searchTerm)),
                CategoryPred(f.selectedCategory)), PricePred(f.priceLo, f.priceHi)),
              PrescriptionStage(f)) == Selected(s, f)
  {
    var sp, cp, pp, rp := SearchPred(f.searchTerm), CategoryPred(f.selectedCategory),
      PricePred(f.priceLo, f.priceHi), PrescriptionStage(f);
    var spc := (m: Medicine) => sp(m) && cp(m);
    var spcp := (m: Medicine) => spc(m) && pp(m);
    var all := MatchPred(f);
    assert forall x :: all(x) == (spcp(x) && rp(x));
    var f1 := Filter(Filter(s, sp), cp);
    FilterFilter(s, sp, cp, spc);
    var f2 := Filter(f1, pp);
    FilterFilter(s, spc, pp, spcp);
    var f3 := Filter(f2, rp);
    FilterFilter(s, spcp, rp, all);
  }

  /** The prescription stage as a single filter, whichever branch the page takes. */
  function PrescriptionStage(f: Filters): Medicine -> bool {
    m => PrescriptionMatches(f.prescriptionOnly, f.nonPrescriptionOnly, m)
  }

  /** The key a sort mode orders by, ascending; the descending orders negate it. */
  function SortKey(mode: SortMode, m: Medicine): real {
    match mode
    case Relevance => 0.0
    case PriceLow => Price(m)
    case PriceHigh => -Price(m)
    case Expiry => m.expiryDate as real
    case Newest => -(m.listingDate as real)
  }

  /** `s` is in non-decreasing order of the mode's key. */
  predicate SortedBy(s: seq<Medicine>, mode: SortMode) {
    forall i, j :: 0 <= i < j < |s| ==> SortKey(mode, s[i]) <= SortKey(mode, s[j])
  }

  /** What each sort order means for the listings it arranges. */
  lemma SortedMeans(s: seq<Medicine>, mode: SortMode)
    requires SortedBy(s, mode)
    ensures mode == PriceLow ==> forall i, j :: 0 <= i < j < |s| ==> Price(s[i]) <= Price(s[j])
    ensures mode == PriceHigh ==> forall i, j :: 0 <= i < j < |s| ==> Price(s[i]) >= Price(s[j])
    ensures mode == Expiry ==> forall i, j :: 0 <= i < j < |s| ==> s[i].expiryDate <= s[j].expiryDate
    ensures mode == Newest ==> forall i, j :: 0 <= i < j < |s| ==> s[i].listingDate >= s[j].listingDate
  {
    forall i, j | 0 <= i < j < |s|
      ensures SortKey(mode, s[i]) <= SortKey(mode, s[j])
    {
    }
  }

  /** Exchanges two elements of `a`. */
  method Swap(a: array<Medicine>, i: int, j: int)
    requires 0 <= i < a.Length && 0 <= j < a.Length
    modifies a
    ensures a[i] == old(a[j]) && a[j] == old(a[i])
    ensures forall k :: 0 <= k < a.Length && k != i && k != j ==> a[k] == old(a[k])
    ensures multiset(a[..]) == multiset(old(a[..]))
  {
    a[i], a[j] := a[j], a[i];
  }

  /** The elements of `a` before `n` are in non-decreasing order of the mode's key. */
  predicate SortedPrefix(a: array<Medicine>, n: int, mode: SortMode)
    requires 0 <= n <= a.Length
    reads a
  {
    forall k, l :: 0 <= k < l < n ==> SortKey(mode, a[k]) <= SortKey(mode, a[l])
  }

  /** One step of the insertion sort: moves `a[i]` down into the sorted prefix before it. */
  method InsertAt(a: array<Medicine>, i: int, mode: SortMode)
    requires 0 <= i < a.Length && SortedPrefix(a, i, mode)
    modifies a
    ensures SortedPrefix(a, i + 1, mode)
    ensures forall k :: i < k < a.Length ==> a[k] == old(a[k])
    ensures multiset(a[..]) == multiset(old(a[..]))
  {
    var j := i;
    while 0 < j && SortKey(mode, a[j]) < SortKey(mode, a[j - 1])
      invariant 0 <= j <= i
      invariant forall k, l :: 0 <= k < l <= i && k != j && l != j ==> SortKey(mode, a[k]) <= SortKey(mode, a[l])
      invariant forall l :: j < l <= i ==> SortKey(mode, a[j]) < SortKey(mode, a[l])
      invariant forall k :: i < k < a.Length ==> a[k] == old(a[k])
      invariant multiset(a[..]) == multiset(old(a[..]))
    {
      Swap(a, j - 1, j);
      j := j - 1;
    }
  }

  /**
   * `result.sort(compare)` on the page's copy, as an insertion sort: it sorts
   * in place, by the mode's key, and only reorders.
   */
  method SortInPlace(a: array<Medicine>, mode: SortMode)
    modifies a
    ensures SortedBy(a[..], mode)
    ensures multiset(a[..]) == multiset(old(a[..]))
  {
    var i := 0;
    while i < a.Length
      invariant 0 <= i <= a.Length
      invariant SortedPrefix(a, i, mode)
      invariant multiset(a[..]) == multiset(old(a[..]))
    {
      InsertAt(a, i, mode);
      i := i + 1;
    }
  }

  /** The four filter stages of the effect, each skipped while its control is at its neutral value. */
  method ApplyFilters(catalog: seq<Medicine>, f: Filters) returns (result: seq<Medicine>)
    ensures result == Selected(catalog, f)
  {
    result := catalog;
    var sp := SearchPred(f.searchTerm);
    if f.searchTerm != "" {
      result := Filter(result, sp);
    } else {
      FilterKeepsAll(result, sp);
    }
    var cp := CategoryPred(f.selectedCategory);
    if f.selectedCategory != AllCategories {
      result := Filter(result, cp);
    } else {
      FilterKeepsAll(result, cp);
    }
    result := Filter(result, PricePred(f.priceLo, f.priceHi));
    var priced := result;
    if f.prescriptionOnly {
      result := Filter(result, PrescriptionPred(true));
      FilterExtensional(priced, PrescriptionPred(true), PrescriptionStage(f));
    } else if f.nonPrescriptionOnly {
      result := Filter(result, PrescriptionPred(false));
      FilterExtensional(priced, PrescriptionPred(false), PrescriptionStage(f));
    } else {
      FilterKeepsAll(priced, PrescriptionStage(f));
    }
    StagesSelect(catalog, f);
  }

  /**
   * The filter effect: copies the catalog, applies the search, category,
   * price and prescription filters in that order, then sorts the copy in
   * place by `sortBy`.
   */
  method Query(catalog: seq<Medicine>, f: Filters) returns (result: seq<Medicine>)
    ensures forall m :: m in result ==> m in catalog && Matches(f, m)
    ensures forall m :: m in catalog && Matches(f, m) ==> m in result
    ensures multiset(result) == multiset(Selected(catalog, f))
    ensures ModeOf(f.sortBy) == Relevance ==> result == Selected(catalog, f) && IsSubsequence(result, catalog)
    ensures ModeOf(f.sortBy) == PriceLow ==> forall i, j :: 0 <= i < j < |result| ==> Price(result[i]) <= Price(result[j])
    ensures ModeOf(f.sortBy) == PriceHigh ==> forall i, j :: 0 <= i < j < |result| ==> Price(result[i]) >= Price(result[j])
    ensures ModeOf(f.sortBy) == Expiry ==> forall i, j :: 0 <= i < j < |result| ==> result[i].expiryDate <= result[j].expiryDate
    ensures ModeOf(f.sortBy) == Newest ==> forall i, j :: 0 <= i < j < |result| ==> result[i].listingDate >= result[j].listingDate
  {
    result := ApplyFilters(catalog, f);
    SelectedMembers(catalog, f);
    var mode := ModeOf(f.sortBy);
    if mode != Relevance {
      var filtered := result;
      var a := new Medicine[|filtered|](i requires 0 <= i < |filtered| => filtered[i]);
      assert a[..] == filtered;
      SortInPlace(a, mode);
      result := a[..];
      SortedMeans(result, mode);
      SameElements(result, filtered);
    }
  }

  /** Sequences with the same multiset have the same members. */
  lemma SameElements(s: seq<Medicine>, t: seq<Medicine>)
    requires multiset(s) == multiset(t)
    ensures forall m :: m in s <==> m in t
  {
    forall m ensures m in s <==> m in t {
      assert m in s <==> m in multiset(s);
      assert m in t <==> m in multiset(t);
    }
  }

  /** The five values of the sort picker select the five orders. */
  lemma SortModesOfPage()
    ensures ModeOf("relevance") == Relevance
    ensures ModeOf("price-low") == PriceLow && ModeOf("price-high") == PriceHigh
    ensures ModeOf("expiry") == Expiry && ModeOf("newest") == Newest
  {
  }

  /** A price range with `lo > hi` selects nothing. */
  lemma InvertedRangeSelectsNothing(catalog: seq<Medicine>, f: Filters)
    requires f.priceLo > f.priceHi
    ensures Selected(catalog, f) == []
  {
    FilterDropsAll(catalog, MatchPred(f));
  }

  /** With both prescription boxes ticked, "prescription only" decides. */
  lemma PrescriptionOnlyWins(f: Filters, m: Medicine)
    requires f.prescriptionOnly
    ensures Matches(f, m) == Matches(f.(nonPrescriptionOnly := false), m)
    ensures PrescriptionMatches(f.prescriptionOnly, f.nonPrescriptionOnly, m) == m.prescription
  {
  }

  /** Every seed category is one of the page's categories other than the sentinel. */
  lemma CatalogCategoriesListed()
    ensures forall m :: m in Catalog ==> m.category in Categories[1..]
    ensures AllCategories !in Categories[1..]
  {
  }

  /** Every seed discounted price lies in the default range [0, 20]. */
  lemma SeedPricesInDefaultRange()
    ensures forall m :: m in Catalog ==> 0.0 <= Price(m) <= 20.0
  {
  }

  /**
   * The active-filter badges are shown. When they are not, no filter can
   * hide a listing whose discounted price lies in the default range, and the
   * initial state (whatever the sort) shows none.
   */
  predicate HasActiveFilters(f: Filters)
    ensures !HasActiveFilters(f) ==> forall m :: 0.0 <= Price(m) <= 20.0 ==> Matches(f, m)
    ensures f.(sortBy := InitialFilters.sortBy) == InitialFilters ==> !HasActiveFilters(f)
  {
    || f.selectedCategory != AllCategories
    || f.searchTerm != ""
    || f.priceLo > 0.0
    || f.priceHi < 20.0
    || f.prescriptionOnly
    || f.nonPrescriptionOnly
  }

  /** When no filter badge is shown, the query keeps the whole catalog, in order. */
  lemma InactiveFiltersKeepCatalog(f: Filters)
    requires !HasActiveFilters(f)
    ensures Selected(Catalog, f) == Catalog
  {
    SeedPricesInDefaultRange();
    forall i | 0 <= i < |Catalog| ensures MatchPred(f)(Catalog[i]) {
      assert Catalog[i] in Catalog;
    }
    FilterKeepsAll(Catalog, MatchPred(f));
  }

  /** The default filter state shows the whole catalog in catalog order. */
  lemma DefaultFiltersKeepCatalog()
    ensures !HasActiveFilters(InitialFilters)
    ensures ModeOf(InitialFilters.sortBy) == Relevance
    ensures Selected(Catalog, InitialFilters) == Catalog
  {
    InactiveFiltersKeepCatalog(InitialFilters);
  }

  /** Choosing "Pain Relief" leaves exactly `med-001`, at a discounted 6.7425. */
  lemma PainReliefSelectsParacetamol()
    ensures Selected(Catalog, InitialFilters.(selectedCategory := "Pain Relief")) == [Catalog[0]]
    ensures Catalog[0].id == "med-001" && Price(Catalog[0]) == 6.7425
  {
    var f := InitialFilters.(selectedCategory := "Pain Relief");
    SeedPricesInDefaultRange();
    assert Catalog[0] in Catalog;
    var p := MatchPred(f);
    assert Catalog == Catalog[..1] + Catalog[1..];
    assert p(Catalog[0]);
    FilterAppend(Catalog[..1], Catalog[1..], p);
    forall i | 0 <= i < |Catalog[1..]| ensures !p(Catalog[1..][i]) {
      assert Catalog[1..][i].category == Catalog[i + 1].category != "Pain Relief";
    }
    FilterDropsAll(Catalog[1..], p);
    assert Catalog[..1] == [] + [Catalog[0]];
  }

  /** The two prescription flags are not both set. */
  predicate Exclusive(f: Filters) {
    !(f.prescriptionOnly && f.nonPrescriptionOnly)
  }

  /** The events of the page that change its filter state. */
  datatype FilterEvent =
    | SearchTyped(term: string)
    | CategoryChosen(category: string)
    | PriceRangeMoved(lo: real, hi: real)
    | PrescriptionChecked(checked: bool)
    | NonPrescriptionChecked(checked: bool)
    | SortChosen(sortBy: string)
    | ResetPressed
    | CategoryBadgeClosed
    | SearchBadgeClosed
    | PriceBadgeClosed
    | PrescriptionBadgeClosed
    | NonPrescriptionBadgeClosed

  /**
   * The filter state after one event's handler has run. No handler sets both
   * prescription flags, and reset restores the initial state.
   */
  function Apply(f: Filters, e: FilterEvent): (g: Filters)
    ensures Exclusive(f) ==> Exclusive(g)
    ensures e == ResetPressed ==> g == InitialFilters
  {
    match e
    case SearchTyped(t) => f.(searchTerm := t)
    case CategoryChosen(c) => f.(selectedCategory := c)
    case PriceRangeMoved(lo, hi) => f.(priceLo := lo, priceHi := hi)
    case PrescriptionChecked(c) =>
      f.(prescriptionOnly := c, nonPrescriptionOnly := if c then false else f.nonPrescriptionOnly)
    case NonPrescriptionChecked(c) =>
      f.(nonPrescriptionOnly := c, prescriptionOnly := if c then false else f.prescriptionOnly)
    case SortChosen(s) => f.(sortBy := s)
    case ResetPressed => InitialFilters
    case CategoryBadgeClosed => f.(selectedCategory := AllCategories)
    case SearchBadgeClosed => f.(searchTerm := "")
    case PriceBadgeClosed => f.(priceLo := 0.0, priceHi := 20.0)
    case PrescriptionBadgeClosed => f.(prescriptionOnly := false)
    case NonPrescriptionBadgeClosed => f.(nonPrescriptionOnly := false)
  }

  /** The filter state after a series of events, oldest first. */
  function Replay(f: Filters, events: seq<FilterEvent>): Filters
    decreases |events|
  {
    if events == [] then f else Replay(Apply(f, events[0]), events[1..])
  }

  /** Ticking one box clears the other; unticking it leaves the other as it was. */
  lemma CheckboxesExclude(f: Filters, checked: bool)
    ensures Apply(f, PrescriptionChecked(checked)).prescriptionOnly == checked
    ensures checked ==> !Apply(f, PrescriptionChecked(checked)).nonPrescriptionOnly
    ensures Apply(f, NonPrescriptionChecked(checked)).nonPrescriptionOnly == checked
    ensures checked ==> !Apply(f, NonPrescriptionChecked(checked)).prescriptionOnly
    ensures Exclusive(Apply(f, PrescriptionChecked(checked)))
    ensures Exclusive(Apply(f, NonPrescriptionChecked(checked)))
  {
  }

  /** Every handler keeps the two prescription flags exclusive. */
  lemma ApplyKeepsExclusive(f: Filters, e: FilterEvent)
    requires Exclusive(f)
    ensures Exclusive(Apply(f, e))
  {
  }

  /** From the initial state, no series of events sets both prescription flags. */
  lemma {:induction false} NeverBothPrescriptionFlags(f: Filters, events: seq<FilterEvent>)
    requires Exclusive(f)
    ensures Exclusive(Replay(f, events))
    decreases |events|
  {
    if events != [] {
      ApplyKeepsExclusive(f, events[0]);
      NeverBothPrescriptionFlags(Apply(f, events[0]), events[1..]);
    }
  }

  /** Reset restores exactly the initial state, whose badges are hidden. */
  lemma ResetRestoresInitial(f: Filters)
    ensures Apply(f, ResetPressed) == InitialFilters
    ensures !HasActiveFilters(Apply(f, ResetPressed))
    ensures Exclusive(Apply(f, ResetPressed))
  {
  }

  /** The discounted prices of a collection of listings are pairwise distinct, and no listing repeats. */
  ghost predicate DistinctPrices(ms: multiset<Medicine>) {
    && (forall x :: x in ms ==> ms[x] == 1)
    && (forall x, y :: x in ms && y in ms && x != y ==> Price(x) != Price(y))
  }

  /** The key of the "price-low" order. */
  function PriceKey(): Medicine -> real {
    m => Price(m)
  }

  /** Ascending by price with distinct prices is strictly ascending. */
  lemma PricesStrictlyAscending(s: seq<Medicine>)
    requires SortedBy(s, PriceLow)
    requires DistinctPrices(multiset(s))
    ensures StrictlyAscending(s, PriceKey())
  {
    forall i, j | 0 <= i < j < |s| ensures Price(s[i]) < Price(s[j]) {
      assert SortKey(PriceLow, s[i]) <= SortKey(PriceLow, s[j]);
      if s[i] == s[j] {
        TwoPositions(s, i, j);
      }
      assert s[i] in multiset(s) && s[j] in multiset(s);
    }
  }

  /**
   * With distinct discounted prices, "price-high" lists in exactly the
   * reverse of the "price-low" order.
   */
  lemma PriceOrdersReverse(s: seq<Medicine>, t: seq<Medicine>)
    requires SortedBy(s, PriceLow) && SortedBy(t, PriceHigh)
    requires multiset(s) == multiset(t)
    requires DistinctPrices(multiset(s))
    ensures t == Reverse(s)
  {
    PricesStrictlyAscending(s);
    var u := Reverse(t);
    ReversePermutes(t);
    forall i, j | 0 <= i < j < |u| ensures Price(u[i]) <= Price(u[j]) {
      assert SortKey(PriceHigh, t[|t| - 1 - j]) <= SortKey(PriceHigh, t[|t| - 1 - i]);
    }
    AscendingIsUnique(s, u, PriceKey());
  }

  /** The filter state ignores the sort order when selecting. */
  lemma SelectionIgnoresSort(catalog: seq<Medicine>, f: Filters, sortBy: string)
    ensures Selected(catalog, f.(sortBy := sortBy)) == Selected(catalog, f)
  {
    FilterExtensional(catalog, MatchPred(f.(sortBy := sortBy)), MatchPred(f));
  }

  /**
   * Querying with "price-low" and then with "price-high" under the same
   * filters gives reversed lists when the selected prices are distinct.
   */
  method AscendingThenDescending(catalog: seq<Medicine>, f: Filters) returns (up: seq<Medicine>, down: seq<Medicine>)
    requires DistinctPrices(multiset(Selected(catalog, f)))
    ensures multiset(up) == multiset(Selected(catalog, f))
    ensures down == Reverse(up)
  {
    var fl, fh := f.(sortBy := "price-low"), f.(sortBy := "price-high");
    up := Query(catalog, fl);
    down := Query(catalog, fh);
    SelectionIgnoresSort(catalog, f, "price-low");
    SelectionIgnoresSort(catalog, f, "price-high");
    forall i, j | 0 <= i < j < |up| ensures SortKey(PriceLow, up[i]) <= SortKey(PriceLow, up[j]) {
    }
    forall i, j | 0 <= i < j < |down| ensures SortKey(PriceHigh, down[i]) <= SortKey(PriceHigh, down[j]) {
    }
    PriceOrdersReverse(up, down);
  }

  /**
   * The page's state: one field per `useState` of the filters, plus the list
   * the effect last computed.
   */
  class FilterPanel {
    var searchTerm: string
    var selectedCategory: string
    var priceLo: real
    var priceHi: real
    var showPrescriptionOnly: bool
    var showNonPrescriptionOnly: bool
    var sortBy: string
    var filteredMedicines: seq<Medicine>

    /** The filter fields as one value. */
    function State(): Filters
      reads this
    {
      Filters(searchTerm, selectedCategory, priceLo, priceHi,
              showPrescriptionOnly, showNonPrescriptionOnly, sortBy)
    }

    /** The invariant the checkbox handlers keep. */
    predicate Valid()
      reads this
    {
      Exclusive(State())
    }

    /** The page as mounted: default filters, the whole catalog listed. */
    constructor ()
      ensures State() == InitialFilters && Valid()
      ensures filteredMedicines == Catalog
    {
      searchTerm, selectedCategory := "", AllCategories;
      priceLo, priceHi := 0.0, 20.0;
      showPrescriptionOnly, showNonPrescriptionOnly := false, false;
      sortBy := "relevance";
      filteredMedicines := Catalog;
    }

    /** Runs the handler of one event: the setters it calls, in order. */
    method Handle(e: FilterEvent)
      requires Valid()
      modifies this
      ensures Valid()
      ensures State() == Apply(old(State()), e)
      ensures filteredMedicines == old(filteredMedicines)
    {
      match e {
        case SearchTyped(t) => searchTerm := t;
        case CategoryChosen(c) => selectedCategory := c;
        case PriceRangeMoved(lo, hi) => priceLo, priceHi := lo, hi;
        case PrescriptionChecked(c) =>
          showPrescriptionOnly := c;
          if c { showNonPrescriptionOnly := false; }
        case NonPrescriptionChecked(c) =>
          showNonPrescriptionOnly := c;
          if c { showPrescriptionOnly := false; }
        case SortChosen(s) => sortBy := s;
        case ResetPressed =>
          searchTerm := "";
          selectedCategory := AllCategories;
          priceLo, priceHi := 0.0, 20.0;
          showPrescriptionOnly := false;
          showNonPrescriptionOnly := false;
          sortBy := "relevance";
        case CategoryBadgeClosed => selectedCategory := AllCategories;
        case SearchBadgeClosed => searchTerm := "";
        case PriceBadgeClosed => priceLo, priceHi := 0.0, 20.0;
        case PrescriptionBadgeClosed => showPrescriptionOnly := false;
        case NonPrescriptionBadgeClosed => showNonPrescriptionOnly := false;
      }
      ApplyKeepsExclusive(old(State()), e);
    }

    /** The filter effect: recomputes the listed medicines from the catalog. */
    method Refresh()
      modifies this`filteredMedicines
      ensures multiset(filteredMedicines) == multiset(Selected(Catalog, State()))
      ensures ModeOf(sortBy) == Relevance ==> filteredMedicines == Selected(Catalog, State())
    {
      var listed := Query(Catalog, State());
      filteredMedicines := listed;
    }
  }

  /** Ticking "prescription required" and then "no prescription needed" leaves only the second. */
  method BothCheckboxesScenario() {
    var page := new FilterPanel();
    page.Handle(PrescriptionChecked(true));
    page.Handle(NonPrescriptionChecked(true));
    assert !page.showPrescriptionOnly && page.showNonPrescriptionOnly;
  }

  /** Choosing "Pain Relief" lists exactly `med-001`; resetting lists the whole catalog again. */
  method PainReliefScenario() {
    var page := new FilterPanel();
    page.Handle(CategoryChosen("Pain Relief"));
    page.Refresh();
    PainReliefSelectsParacetamol();
    assert page.filteredMedicines == [Catalog[0]];
    page.Handle(ResetPressed);
    assert page.State() == InitialFilters;
    page.Refresh();
    DefaultFiltersKeepCatalog();
    assert page.filteredMedicines == Selected(Catalog, InitialFilters) == Catalog;
  }
}
