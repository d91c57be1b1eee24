/**
 * The values a catalog card derives from a listing: the discounted price,
 * the whole days left until expiry, the urgency bucket that colours the
 * expiry badge, the badge label, and whether the list price is struck
 * through. `today` is the current time in milliseconds (a parameter: the
 * card reads the clock).
 */
module MedicineCard {
  import opened MedicineData

  /** Milliseconds in a day (`1000 * 60 * 60 * 24`). */
  const MsPerDay: int := 1000 * 60 * 60 * 24

  /** `price - price * (discountPercentage / 100)`. */
  function DiscountedPrice(price: real, discountPercentage: real): (r: real)
    ensures r == price * (1.0 - discountPercentage / 100.0)
    ensures discountPercentage == 0.0 ==> r == price
    ensures 0.0 <= price && 0.0 <= discountPercentage <= 100.0 ==> 0.0 <= r <= price
  {
    DiscountBounds(price, discountPercentage);
    price - price * (discountPercentage / 100.0)
  }

  /** The amount taken off lies between nothing and the whole price. */
  lemma DiscountBounds(price: real, discountPercentage: real)
    ensures 0.0 <= price && 0.0 <= discountPercentage <= 100.0 ==>
              0.0 <= price * (discountPercentage / 100.0) <= price
  {
    if 0.0 <= price && 0.0 <= discountPercentage <= 100.0 {
      var f := discountPercentage / 100.0;
      assert 0.0 <= f <= 1.0;
      assert price * f <= price * 1.0;
    }
  }

  /**
   * `Math.ceil((expiry - today) / MsPerDay)`: the least whole number of days
   * that covers the time left (negative once the listing has expired).
   */
  function DaysUntilExpiry(expiry: int, today: int): (days: int)
    ensures days * MsPerDay >= expiry - today
    ensures (days - 1) * MsPerDay < expiry - today
  {
    -((today - expiry) / MsPerDay)
  }

  /** Any whole number of days covering the time left is at least the count. */
  lemma DaysUntilExpiryIsLeast(expiry: int, today: int, d: int)
    requires d * MsPerDay >= expiry - today
    ensures DaysUntilExpiry(expiry, today) <= d
  {
  }

  /** A later expiry never leaves fewer days. */
  lemma DaysMonotone(e1: int, e2: int, today: int)
    requires e1 <= e2
    ensures DaysUntilExpiry(e1, today) <= DaysUntilExpiry(e2, today)
  {
    DaysUntilExpiryIsLeast(e1, today, DaysUntilExpiry(e2, today));
  }

  /** The expiry badge colour: red, yellow or green. */
  datatype ExpiryStatus = Urgent | Soon | Safe

  /** `getExpiryStatusColor`: red up to 30 days, yellow up to 90, green beyond. */
  function StatusOf(days: int): (s: ExpiryStatus)
    ensures s == Urgent <==> days <= 30
    ensures s == Soon <==> 30 < days <= 90
    ensures s == Safe <==> 90 < days
  {
    if days <= 30 then Urgent else if days <= 90 then Soon else Safe
  }

  /** How pressing a bucket is: 2 for red, 1 for yellow, 0 for green. */
  function Urgency(s: ExpiryStatus): nat {
    match s
    case Urgent => 2
    case Soon => 1
    case Safe => 0
  }

  /** More days left never gives a more urgent bucket. */
  lemma StatusMonotone(d1: int, d2: int)
    requires d1 <= d2
    ensures Urgency(StatusOf(d2)) <= Urgency(StatusOf(d1))
  {
  }

  /** A later expiry date never gives a more urgent bucket. */
  lemma LaterExpiryNeverMoreUrgent(e1: int, e2: int, today: int)
    requires e1 <= e2
    ensures Urgency(StatusOf(DaysUntilExpiry(e2, today))) <= Urgency(StatusOf(DaysUntilExpiry(e1, today)))
  {
    DaysMonotone(e1, e2, today);
    StatusMonotone(DaysUntilExpiry(e1, today), DaysUntilExpiry(e2, today));
  }

  /** The expiry badge text: "Expired" or "Expires in N days". */
  datatype ExpiryLabel = Expired | ExpiresIn(days: int)

  /** The badge label for a day count. */
  function LabelOf(days: int): (l: ExpiryLabel)
    ensures l == Expired <==> days <= 0
    ensures l.ExpiresIn? ==> l.days == days && days > 0
  {
    if days > 0 then ExpiresIn(days) else Expired
  }

  /** An expired listing is always in the red bucket. */
  lemma ExpiredIsUrgent(days: int)
    requires LabelOf(days) == Expired
    ensures StatusOf(days) == Urgent
  {
  }

  /** Everything a card shows that is computed rather than copied from the listing. */
  datatype CardView = CardView(
    discountedPrice: real,
    daysUntilExpiry: int,
    status: ExpiryStatus,
    badge: ExpiryLabel,
    showsListPrice: bool)

  /** The derived values of the card for listing `m` at time `today`. */
  function Card(m: Medicine, today: int): (v: CardView)
    ensures v.discountedPrice == m.price * (1.0 - m.discountPercentage / 100.0)
    ensures v.daysUntilExpiry * MsPerDay >= m.expiryDate - today > (v.daysUntilExpiry - 1) * MsPerDay
    ensures v.status == StatusOf(v.daysUntilExpiry) && v.badge == LabelOf(v.daysUntilExpiry)
    ensures v.badge == Expired ==> v.status == Urgent
    ensures v.badge == Expired <==> m.expiryDate <= today
    ensures v.showsListPrice <==> m.discountPercentage > 0.0
  {
    var days := DaysUntilExpiry(m.expiryDate, today);
    CardView(
      DiscountedPrice(m.price, m.discountPercentage),
      days,
      StatusOf(days),
      LabelOf(days),
      m.discountPercentage > 0.0)
  }
}
