/**
 * The static catalog: the `Medicine` record and the six seed listings.
 * Dates are millisecond timestamps of UTC midnight of the listed day (what
 * `new Date("YYYY-MM-DD").getTime()` yields); prices and percentages are
 * exact reals.
 */
module MedicineData {

  /** One listing of the catalog. */
  datatype Medicine = Medicine(
    id: string,
    name: string,
    brand: string,
    price: real,
    discountPercentage: real,
    expiryDate: int,
    imageUrl: string,
    category: string,
    description: string,
    dosage: string,
    quantity: int,
    sellerId: string,
    sellerName: string,
    location: string,
    listingDate: int,
    condition: string,
    prescription: bool)

  /** The seed catalog, in its source order. */
  const Catalog: seq<Medicine> := [
    Medicine(
      "med-001", "Paracetamol 500mg", "Tylenol", 8.99, 25.0,
      1734220800000,  // 2024-12-15
      "https://images.unsplash.com/photo-1584308666744-24d5c474f2ae?w=800&auto=format&fit=crop",
      "Pain Relief",
      "Paracetamol is a medication used to treat fever and mild to moderate pain. At therapeutic doses, paracetamol does not irritate the lining of the stomach nor affect blood coagulation, kidneys, or the fetal ductus arteriosus (as NSAIDs can).",
      "500mg tablets", 20, "user-101", "John Smith", "New York, NY",
      1694736000000,  // 2023-09-15
      "Sealed", false),
    Medicine(
      "med-002", "Amoxicillin 250mg", "Amoxil", 14.99, 15.0,
      1718841600000,  // 2024-06-20
      "https://images.unsplash.com/photo-1471864190281-a93a3070b6de?w=800&auto=format&fit=crop",
      "Antibiotics",
      "Amoxicillin is used to treat a wide variety of bacterial infections. This medication is a penicillin-type antibiotic. It works by stopping the growth of bacteria.",
      "250mg capsules", 14, "user-102", "Emily Johnson", "Chicago, IL",
      1696118400000,  // 2023-10-01
      "Unopened", true),
    Medicine(
      "med-003", "Lisinopril 10mg", "Prinivil", 12.50, 30.0,
      1709078400000,  // 2024-02-28
      "https://images.unsplash.com/photo-1626285861696-9f404a966c49?w=800&auto=format&fit=crop",
      "Blood Pressure",
      "Lisinopril is used to treat high blood pressure (hypertension) and heart failure. Lowering high blood pressure helps prevent strokes, heart attacks, and kidney problems.",
      "10mg tablets", 30, "user-103", "Michael Brown", "Los Angeles, CA",
      1697328000000,  // 2023-10-15
      "Sealed", true),
    Medicine(
      "med-004", "Cetirizine 10mg", "Zyrtec", 9.99, 20.0,
      1725926400000,  // 2024-09-10
      "https://images.unsplash.com/photo-1550572017-26b5655c6ea4?w=800&auto=format&fit=crop",
      "Allergy",
      "Cetirizine is an antihistamine used to relieve allergy symptoms such as watery eyes, runny nose, itching eyes/nose, sneezing, hives, and itching.",
      "10mg tablets", 24, "user-104", "Jessica Wilson", "Houston, TX",
      1699142400000,  // 2023-11-05
      "Unopened", false),
    Medicine(
      "med-005", "Omeprazole 20mg", "Prilosec", 18.99, 35.0,
      1723680000000,  // 2024-08-15
      "https://images.unsplash.com/photo-1616874535244-73aea5daadb9?w=800&auto=format&fit=crop",
      "Digestive Health",
      "Omeprazole is used to treat certain stomach and esophagus problems (such as acid reflux, ulcers). It works by decreasing the amount of acid your stomach makes.",
      "20mg delayed-release capsules", 28, "user-105", "David Garcia", "Miami, FL",
      1700438400000,  // 2023-11-20
      "Sealed", false),
    Medicine(
      "med-006", "Vitamin D3 1000IU", "Nature's Bounty", 12.99, 10.0,
      1740787200000,  // 2025-03-01
      "https://images.unsplash.com/photo-1577460551100-907eb0c0a6b0?w=800&auto=format&fit=crop",
      "Vitamins",
      "Vitamin D3 helps your body absorb calcium and phosphorus. Having the right amount of vitamin D, calcium, and phosphorus is important for building and keeping strong bones.",
      "1000IU softgels", 120, "user-106", "Sarah Martinez", "Seattle, WA",
      1701388800000,  // 2023-12-01
      "Unopened", false)
  ]

  /** No two listings share an id. */
  ghost predicate DistinctIds(c: seq<Medicine>) {
    forall i, j :: 0 <= i < j < |c| ==> c[i].id != c[j].id
  }

  /** The catalog holds six listings, `med-001` to `med-006` in order, with distinct ids. */
  lemma CatalogIds()
    ensures |Catalog| == 6
    ensures Catalog[0].id == "med-001" && Catalog[1].id == "med-002" && Catalog[2].id == "med-003"
    ensures Catalog[3].id == "med-004" && Catalog[4].id == "med-005" && Catalog[5].id == "med-006"
    ensures DistinctIds(Catalog)
  {
  }

  /** Every seed price is positive and every discount a percentage. */
  lemma CatalogPricesWellFormed()
    ensures forall m :: m in Catalog ==> m.price > 0.0 && 0.0 <= m.discountPercentage <= 100.0
  {
  }

  /** Exactly `med-002` and `med-003` require a prescription. */
  lemma CatalogPrescriptions()
    ensures forall i :: 0 <= i < |Catalog| ==> (Catalog[i].prescription <==> i == 1 || i == 2)
  {
  }
}
