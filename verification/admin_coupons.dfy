/**
 * The administrator's coupon page: the coupon list with create, delete and
 * activate/deactivate, the code-or-description search, and the four
 * counters at the top of the page.
 */
module AdminCoupons {
  import opened Common

  datatype DiscountType = Percentage | Fixed

  /**
   * A coupon. `expiresAt` is the expiry instant in milliseconds, `None` when
   * the coupon has none (or its date does not read as one, which the page
   * treats the same way).
   */
  datatype Coupon = Coupon(
    id: int,
    code: string,
    description: string,
    discount: real,
    discountType: DiscountType,
    minValue: Option<real>,
    maxUses: Option<int>,
    currentUses: int,
    expiresAt: Option<int>,
    isActive: bool,
    createdAt: string)

  /** The create-coupon form. */
  datatype CouponForm = CouponForm(
    code: string,
    description: string,
    discount: real,
    discountType: DiscountType,
    minValue: Option<real>,
    maxUses: Option<int>,
    expiresAt: Option<int>)

  /** The form as it starts and as a successful create leaves it. */
  const EMPTY_COUPON_FORM := CouponForm("", "", 0.0, Percentage, None, None, None)

  /** Code and description are required and the discount must be positive. */
  predicate CouponFormValid(f: CouponForm)
  {
    f.code != "" && f.description != "" && f.discount > 0.0
  }

  ghost predicate UniqueCouponIds(coupons: seq<Coupon>)
  {
    forall i, j :: 0 <= i < j < |coupons| ==> coupons[i].id != coupons[j].id
  }

  /** The coupon a create builds: the form's fields, never used yet, active. */
  function NewCoupon(f: CouponForm, id: int, createdAt: string): (c: Coupon)
    ensures c.id == id && c.createdAt == createdAt
    ensures c.code == f.code && c.description == f.description && c.discount == f.discount
    ensures c.discountType == f.discountType && c.minValue == f.minValue
    ensures c.maxUses == f.maxUses && c.expiresAt == f.expiresAt
    ensures c.currentUses == 0 && c.isActive
  {
    Coupon(id, f.code, f.description, f.discount, f.discountType, f.minValue, f.maxUses, 0, f.expiresAt, true, createdAt)
  }

  /** `deleteCoupon`: every coupon with the id leaves the list, all others stay. */
  function DeleteCoupon(coupons: seq<Coupon>, id: int): (r: seq<Coupon>)
    ensures forall i :: 0 <= i < |r| ==> r[i].id != id && r[i] in coupons
    ensures forall i :: 0 <= i < |coupons| && coupons[i].id != id ==> coupons[i] in r
  {
    Filter(coupons, (c: Coupon) => c.id != id)
  }

  /** `toggleCouponStatus`: every coupon with the id gets the given active flag. */
  function SetActive(coupons: seq<Coupon>, id: int, isActive: bool): (r: seq<Coupon>)
    ensures |r| == |coupons|
    ensures forall i :: 0 <= i < |coupons| ==>
              r[i].(isActive := coupons[i].isActive) == coupons[i] &&
              r[i].isActive == if coupons[i].id == id then isActive else coupons[i].isActive
  {
    MapWhere(coupons, (c: Coupon) => c.id == id, (c: Coupon) => c.(isActive := isActive))
  }

  /** Only the last switch counts: setting the flag twice is setting it the second time. */
  lemma SetActiveLastWins(coupons: seq<Coupon>, id: int, a: bool, b: bool)
    ensures SetActive(SetActive(coupons, id, a), id, b) == SetActive(coupons, id, b)
  {
  }

  /** Switching a coupon to the state it is already in changes nothing. */
  lemma SetActiveSameIsIdentity(coupons: seq<Coupon>, id: int)
    requires forall i :: 0 <= i < |coupons| && coupons[i].id == id ==> coupons[i].isActive
    ensures SetActive(coupons, id, true) == coupons
  {
  }

  /** The search: code or description holds the term, ignoring case. */
  predicate CouponMatches(c: Coupon, term: string)
  {
    MatchesTerm(c.code, term) || MatchesTerm(c.description, term)
  }

  function FilteredCoupons(coupons: seq<Coupon>, term: string): (r: seq<Coupon>)
    ensures forall i :: 0 <= i < |r| ==> r[i] in coupons && CouponMatches(r[i], term)
    ensures forall i :: 0 <= i < |coupons| && CouponMatches(coupons[i], term) ==> coupons[i] in r
  {
    Filter(coupons, (c: Coupon) => CouponMatches(c, term))
  }

  lemma EmptySearchShowsAll(coupons: seq<Coupon>)
    ensures FilteredCoupons(coupons, "") == coupons
  {
    FilterKeepsAll(coupons, (c: Coupon) => CouponMatches(c, ""));
  }

  // ---------------------------------------------------------------------
  // counters
  // ---------------------------------------------------------------------

  predicate IsActive(c: Coupon)
  {
    c.isActive
  }

  /** Past its expiry at `now`; a coupon without an expiry never is. */
  predicate IsExpired(c: Coupon, now: int)
  {
    c.expiresAt.Some? && c.expiresAt.value < now
  }

  function Uses(c: Coupon): int
  {
    c.currentUses
  }

  datatype CouponStats = CouponStats(total: nat, active: nat, expired: nat, used: int)

  /** The counters: all coupons, the active ones, the expired ones, and uses summed over all. */
  function Stats(coupons: seq<Coupon>, now: int): (s: CouponStats)
    ensures s.total == |coupons|
    ensures s.active <= s.total && s.expired <= s.total
    ensures coupons == [] ==> s == CouponStats(0, 0, 0, 0)
  {
    CouponStats(|coupons|, Count(coupons, IsActive),
                Count(coupons, (c: Coupon) => IsExpired(c, now)), IntSum(coupons, Uses))
  }

  /** Use counts are never negative, so neither is the total. */
  lemma UsedNonNegative(coupons: seq<Coupon>, now: int)
    requires forall i :: 0 <= i < |coupons| ==> coupons[i].currentUses >= 0
    ensures Stats(coupons, now).used >= 0
  {
    assert forall x :: x in coupons ==> Uses(x) >= 0;
    IntSumNonNegative(coupons, Uses);
  }

  /** A new coupon adds one to the total and to the active count, adds no use, and counts as expired only if its date is past. */
  lemma AddCouponStats(coupons: seq<Coupon>, f: CouponForm, id: int, createdAt: string, now: int)
    ensures var before := Stats(coupons, now);
            var after := Stats(coupons + [NewCoupon(f, id, createdAt)], now);
            after.total == before.total + 1 &&
            after.active == before.active + 1 &&
            after.used == before.used &&
            after.expired == before.expired + (if f.expiresAt.Some? && f.expiresAt.value < now then 1 else 0)
  {
    var c := NewCoupon(f, id, createdAt);
    CountAppend(coupons, [c], IsActive);
    CountAppend(coupons, [c], (x: Coupon) => IsExpired(x, now));
    IntSumAppend(coupons, [c], Uses);
  }

  /** With unique ids, switching one coupon moves it between active and inactive and changes no other counter. */
  lemma SetActiveStats(coupons: seq<Coupon>, k: int, isActive: bool, now: int)
    requires UniqueCouponIds(coupons) && 0 <= k < |coupons|
    ensures var before := Stats(coupons, now);
            var after := Stats(SetActive(coupons, coupons[k].id, isActive), now);
            after.total == before.total &&
            after.active == before.active - (if coupons[k].isActive then 1 else 0) + (if isActive then 1 else 0) &&
            after.expired == before.expired &&
            after.used == before.used
  {
    var id := coupons[k].id;
    var matches := (c: Coupon) => c.id == id;
    var f := (c: Coupon) => c.(isActive := isActive);
    assert OnlyMatchAt(coupons, matches, k);
    MapWhereCountOne(coupons, matches, f, IsActive, k);
    MapWhereCountOne(coupons, matches, f, (x: Coupon) => IsExpired(x, now), k);
    MapWhereIntSumOne(coupons, matches, f, Uses, k);
  }

  /** Deleting keeps ids unique. */
  lemma DeleteKeepsUniqueIds(coupons: seq<Coupon>, id: int)
    requires UniqueCouponIds(coupons)
    ensures UniqueCouponIds(DeleteCoupon(coupons, id))
  {
    FilterKeepsPairwise(coupons, (c: Coupon) => c.id != id, (a: Coupon, b: Coupon) => a.id != b.id);
  }

  // ---------------------------------------------------------------------
  // the page state
  // ---------------------------------------------------------------------

  class CouponsPage {
    var coupons: seq<Coupon>
    var form: CouponForm

    ghost predicate Valid()
      reads this
    {
      UniqueCouponIds(coupons)
    }

    /** `loadCoupons`: the page starts with no coupons and an empty form. */
    constructor ()
      ensures Valid()
      ensures coupons == [] && form == EMPTY_COUPON_FORM
    {
      coupons := [];
      form := EMPTY_COUPON_FORM;
    }

    method EditForm(f: CouponForm)
      modifies this
      ensures form == f && coupons == old(coupons)
    {
      form := f;
    }

    /**
     * `handleAddCoupon`: with a valid form, the new coupon goes at the end
     * and the form is reset; otherwise nothing happens.
     */
    method HandleAddCoupon(id: int, createdAt: string) returns (added: bool)
      modifies this
      ensures added <==> CouponFormValid(old(form))
      ensures added ==> coupons == old(coupons) + [NewCoupon(old(form), id, createdAt)] && form == EMPTY_COUPON_FORM
      ensures !added ==> coupons == old(coupons) && form == old(form)
      ensures added && old(Valid()) && (forall i :: 0 <= i < |old(coupons)| ==> old(coupons)[i].id != id) ==> Valid()
    {
      added := CouponFormValid(form);
      if added {
        coupons := coupons + [NewCoupon(form, id, createdAt)];
        form := EMPTY_COUPON_FORM;
      }
    }

    method Delete(id: int)
      modifies this
      ensures coupons == DeleteCoupon(old(coupons), id) && form == old(form)
      ensures old(Valid()) ==> Valid()
    {
      if Valid() {
        DeleteKeepsUniqueIds(coupons, id);
      }
      coupons := DeleteCoupon(coupons, id);
    }

    method ToggleCouponStatus(id: int, isActive: bool)
      modifies this
      ensures coupons == SetActive(old(coupons), id, isActive) && form == old(form)
      ensures old(Valid()) ==> Valid()
    {
      coupons := SetActive(coupons, id, isActive);
    }
  }
}
