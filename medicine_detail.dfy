/**
 * The detail page of one listing: the lookup by the route id, the loading
 * flag around it, the page's own copies of the day count, urgency bucket and
 * discounted price, and the list of up to four similar listings. `today` is
 * the current time in milliseconds (a parameter: the page reads the clock).
 */
module MedicineDetail {
  import opened Wrappers
  import opened Seqs
  import opened MedicineData
  import opened MedicineCard

  /**
   * `medicineData.find(med => med.id === id)`. The route parameter may be
   * missing (`None`), and then no listing matches it.
   */
  function FindById(catalog: seq<Medicine>, id: Option<string>): (r: Option<Medicine>)
    ensures r.None? <==> forall i :: 0 <= i < |catalog| ==> Some(catalog[i].id) != id
    ensures r.Some? ==> r.value in catalog && Some(r.value.id) == id
  {
    if |catalog| == 0 then None
    else if Some(catalog[0].id) == id then Some(catalog[0])
    else
      var r := FindById(catalog[1..], id);
      assert forall i :: 1 <= i < |catalog| ==> catalog[i] == catalog[1..][i - 1];
      r
  }

  /** The lookup yields the first listing carrying the id. */
  lemma {:induction false} FindByIdIsFirst(catalog: seq<Medicine>, id: Option<string>, i: int)
    requires 0 <= i < |catalog| && Some(catalog[i].id) == id
    requires forall j :: 0 <= j < i ==> Some(catalog[j].id) != id
    ensures FindById(catalog, id) == Some(catalog[i])
    decreases i
  {
    if i > 0 {
      var tail := catalog[1..];
      assert forall j :: 0 <= j < i - 1 ==> tail[j] == catalog[j + 1];
      FindByIdIsFirst(tail, id, i - 1);
    }
  }

  /** With distinct ids the lookup finds the listing at whatever position it sits. */
  lemma FindByDistinctId(catalog: seq<Medicine>, i: int)
    requires DistinctIds(catalog) && 0 <= i < |catalog|
    ensures FindById(catalog, Some(catalog[i].id)) == Some(catalog[i])
  {
    FindByIdIsFirst(catalog, Some(catalog[i].id), i);
  }

  /** `/medicine/med-003` shows the Lisinopril listing. */
  lemma FindsSeedListing()
    ensures FindById(Catalog, Some("med-003")) == Some(Catalog[2])
  {
    CatalogIds();
    FindByDistinctId(Catalog, 2);
  }

  /** An id outside the catalog, or a missing route parameter, finds nothing. */
  lemma UnknownIdFindsNothing()
    ensures FindById(Catalog, Some("med-007")) == None
    ensures FindById(Catalog, None) == None
  {
    CatalogIds();
    var ids := ["med-001", "med-002", "med-003", "med-004", "med-005", "med-006"];
    assert forall i :: 0 <= i < |Catalog| ==> Catalog[i].id == ids[i];
    assert forall i :: 0 <= i < |ids| ==> ids[i][6] != '7';
  }

  /** What the page renders: the loading screen, "Medicine Not Found", or the details. */
  datatype View = LoadingView | NotFoundView | DetailView(shown: Medicine)

  /** The early returns of the page: loading comes first, then the missing listing. */
  function ViewOf(medicine: Option<Medicine>, loading: bool): (v: View)
    ensures v == LoadingView <==> loading
    ensures v == NotFoundView <==> !loading && medicine.None?
    ensures v.DetailView? ==> medicine == Some(v.shown)
    ensures !loading && medicine.Some? ==> v == DetailView(medicine.value)
  {
    if loading then LoadingView
    else if medicine.None? then NotFoundView
    else DetailView(medicine.value)
  }

  /**
   * The page's own `Math.ceil((expiry - today) / MsPerDay)`, and `0` when no
   * listing is loaded.
   */
  function CalculateDaysUntilExpiry(medicine: Option<Medicine>, today: int): (days: int)
    ensures medicine.None? ==> days == 0
    ensures medicine.Some? ==>
              days * MsPerDay >= medicine.value.expiryDate - today > (days - 1) * MsPerDay
  {
    if medicine.None? then 0
    else
      var left := medicine.value.expiryDate - today;
      if left % MsPerDay == 0 then left / MsPerDay else left / MsPerDay + 1
  }

  /** The page's own `getExpiryStatusColor` over its day count. */
  function DetailStatus(days: int): (s: ExpiryStatus)
    ensures s == Urgent <==> days <= 30
    ensures s == Safe <==> 90 < days
  {
    if days <= 30 then Urgent else if days <= 90 then Soon else Safe
  }

  /** The page's own `price - price * (discountPercentage / 100)`, and `0` when no listing is loaded. */
  function CalculateDiscountedPrice(medicine: Option<Medicine>): (r: real)
    ensures medicine.None? ==> r == 0.0
    ensures medicine.Some? ==>
              r == medicine.value.price * (1.0 - medicine.value.discountPercentage / 100.0)
  {
    if medicine.None? then 0.0
    else medicine.value.price - medicine.value.price * (medicine.value.discountPercentage / 100.0)
  }

  /** The detail page and the card compute the same days, bucket, label and price. */
  lemma DetailAgreesWithCard(m: Medicine, today: int)
    ensures CalculateDaysUntilExpiry(Some(m), today) == Card(m, today).daysUntilExpiry
    ensures DetailStatus(CalculateDaysUntilExpiry(Some(m), today)) == Card(m, today).status
    ensures LabelOf(CalculateDaysUntilExpiry(Some(m), today)) == Card(m, today).badge
    ensures CalculateDiscountedPrice(Some(m)) == Card(m, today).discountedPrice
  {
  }

  /** The similar-list predicate: same category, other id. */
  function SimilarTo(current: Medicine): Medicine -> bool {
    (med: Medicine) => med.category == current.category && med.id != current.id
  }

  /** `medicineData.filter(same category, other id).slice(0, 4)`. */
  function SimilarMedicines(catalog: seq<Medicine>, current: Medicine): (r: seq<Medicine>)
    ensures |r| <= 4
    ensures forall i :: 0 <= i < |r| ==> r[i].category == current.category && r[i].id != current.id
  {
    var similar := Filter(catalog, SimilarTo(current));
    FilterSatisfies(catalog, SimilarTo(current));
    if |similar| <= 4 then similar else similar[..4]
  }

  /** The similar list keeps catalog order. */
  lemma SimilarKeepsOrder(catalog: seq<Medicine>, current: Medicine)
    ensures IsSubsequence(SimilarMedicines(catalog, current), catalog)
  {
    var similar := Filter(catalog, SimilarTo(current));
    FilterIsSubsequence(catalog, SimilarTo(current));
    if |similar| > 4 {
      PrefixIsSubsequence(similar, catalog, 4);
    }
  }

  /** A kept head stays at the front of the filtered list. */
  lemma FilterConsKept(x: Medicine, rest: seq<Medicine>, p: Medicine -> bool)
    requires p(x)
    ensures Filter([x] + rest, p) == [x] + Filter(rest, p)
  {
    FilterAppend([x], rest, p);
    assert Filter([x], p) == Filter([], p) + [x];
  }

  /**
   * The similar list is the first four similar listings: a similar listing
   * with fewer than four similar listings before it is shown.
   */
  lemma SimilarIsFirstFour(catalog: seq<Medicine>, current: Medicine, i: int)
    requires 0 <= i < |catalog| && SimilarTo(current)(catalog[i])
    requires |Filter(catalog[..i], SimilarTo(current))| < 4
    ensures catalog[i] in SimilarMedicines(catalog, current)
  {
    var p := SimilarTo(current);
    var before := Filter(catalog[..i], p);
    assert catalog == catalog[..i] + ([catalog[i]] + catalog[i + 1..]);
    FilterAppend(catalog[..i], [catalog[i]] + catalog[i + 1..], p);
    FilterConsKept(catalog[i], catalog[i + 1..], p);
    var similar := Filter(catalog, p);
    assert similar == before + ([catalog[i]] + Filter(catalog[i + 1..], p));
    assert similar[|before|] == catalog[i];
    var r := SimilarMedicines(catalog, current);
    assert r[|before|] == catalog[i];
  }

  /** Fewer than four similar listings means every similar listing is shown. */
  lemma ShortSimilarListIsComplete(catalog: seq<Medicine>, current: Medicine)
    requires |SimilarMedicines(catalog, current)| < 4
    ensures forall x :: x in catalog && x.category == current.category && x.id != current.id ==>
              x in SimilarMedicines(catalog, current)
  {
    FilterMembers(catalog, SimilarTo(current));
  }

  /** Every seed listing has a category of its own, so its similar list is empty. */
  lemma SeedListingsHaveNoSimilar(i: int)
    requires 0 <= i < |Catalog|
    ensures SimilarMedicines(Catalog, Catalog[i]) == []
  {
    FilterDropsAll(Catalog, SimilarTo(Catalog[i]));
  }

  /** The page state around `fetchMedicine` for the seed catalog. */
  class DetailPage {
    var medicine: Option<Medicine>
    var loading: bool

    /** `useState(null)` and `useState(true)`: nothing shown, loading. */
    constructor()
      ensures medicine == None && loading
      ensures ViewOf(medicine, loading) == LoadingView
    {
      medicine := None;
      loading := true;
    }

    /**
     * `fetchMedicine`: raise the flag, set the listing when the id is found,
     * clear the flag. An id that is not found leaves the previous listing.
     */
    method FetchMedicine(id: Option<string>)
      modifies this
      ensures !loading
      ensures FindById(Catalog, id).Some? ==> medicine == FindById(Catalog, id)
      ensures FindById(Catalog, id).None? ==> medicine == old(medicine)
    {
      loading := true;
      var found := FindById(Catalog, id);
      if found.Some? {
        medicine := found;
      }
      loading := false;
    }
  }

  /** A first visit with an unknown id ends on "Medicine Not Found". */
  method UnknownIdScenario()
  {
    var page := new DetailPage();
    page.FetchMedicine(Some("med-007"));
    UnknownIdFindsNothing();
    assert ViewOf(page.medicine, page.loading) == NotFoundView;
    assert CalculateDaysUntilExpiry(page.medicine, 0) == 0;
    assert CalculateDiscountedPrice(page.medicine) == 0.0;
  }

  /** A visit to `med-003` shows Lisinopril. */
  method SeedIdScenario()
  {
    var page := new DetailPage();
    page.FetchMedicine(Some("med-003"));
    FindsSeedListing();
    assert ViewOf(page.medicine, page.loading) == DetailView(Catalog[2]);
  }
}
