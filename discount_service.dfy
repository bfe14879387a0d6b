/**
 * `DiscountService`: an in-memory list of discount records with create, merge-update, delete
 * and coupon redemption, coupon validation, the best-price calculation for a product, and
 * statistics. Money is `real`; dates are milliseconds since the epoch; `now` is a parameter.
 */
module Discounts {
  import opened Wrappers
  import opened JsArray
  import Strings

  datatype DiscountType = Percentage | Fixed | Category | Coupon

  /** A discount record; `undefined` fields are `None`. */
  datatype Discount = Discount(
    id: string,
    kind: DiscountType,
    value: real,
    startDate: Option<int>,
    endDate: Option<int>,
    category: Option<string>,
    couponCode: Option<string>,
    isActive: bool,
    description: Option<string>,
    minPurchase: Option<real>,
    maxDiscount: Option<real>,
    usageLimit: Option<int>,
    usedCount: int)

  /** What `createDiscount` receives: a record without `id` and `usedCount`. */
  datatype DiscountDraft = DiscountDraft(
    kind: DiscountType,
    value: real,
    startDate: Option<int>,
    endDate: Option<int>,
    category: Option<string>,
    couponCode: Option<string>,
    isActive: bool,
    description: Option<string>,
    minPurchase: Option<real>,
    maxDiscount: Option<real>,
    usageLimit: Option<int>)

  /**
   * A `Partial<Discount>`: `None` is a key the object does not have; `Some(None)` is a key set
   * to `undefined`, which the spread copies over the old value.
   */
  datatype DiscountPatch = DiscountPatch(
    id: Option<string>,
    kind: Option<DiscountType>,
    value: Option<real>,
    startDate: Option<Option<int>>,
    endDate: Option<Option<int>>,
    category: Option<Option<string>>,
    couponCode: Option<Option<string>>,
    isActive: Option<bool>,
    description: Option<Option<string>>,
    minPurchase: Option<Option<real>>,
    maxDiscount: Option<Option<real>>,
    usageLimit: Option<Option<int>>,
    usedCount: Option<int>)

  const NoChanges := DiscountPatch(None, None, None, None, None, None, None, None, None, None, None, None, None)

  // ---------------------------------------------------------------- JavaScript defaults

  /** A number is truthy when it is present and not zero. */
  predicate TruthyNumber(x: Option<real>) {
    x.Some? && x.value != 0.0
  }

  /** `x || fallback` on a number that may be `undefined`. */
  function OrElse(x: Option<real>, fallback: real): (r: real)
    ensures TruthyNumber(x) ==> r == x.value
    ensures !TruthyNumber(x) ==> r == fallback
  {
    if TruthyNumber(x) then x.value else fallback
  }

  /** `usedCount < (usageLimit || Infinity)`: a missing or zero limit means unlimited. */
  predicate HasUsesLeft(d: Discount) {
    if d.usageLimit.None? || d.usageLimit.value == 0 then true
    else d.usedCount < d.usageLimit.value
  }

  /**
   * `isDiscountActive(startDate, endDate)`: false when `now` is before the start or after the
   * end; both boundaries belong to the window.
   */
  predicate InWindow(startDate: Option<int>, endDate: Option<int>, now: int): (r: bool)
    ensures r <==> (startDate.None? || startDate.value <= now) && (endDate.None? || now <= endDate.value)
    ensures startDate.Some? && endDate.Some? && endDate.value < startDate.value ==> !r
  {
    if startDate.Some? && now < startDate.value then false
    else if endDate.Some? && now > endDate.value then false
    else true
  }

  /** The window is an interval: between two instants inside it, every instant is inside it. */
  lemma WindowIsInterval(startDate: Option<int>, endDate: Option<int>, early: int, now: int, late: int)
    requires InWindow(startDate, endDate, early) && InWindow(startDate, endDate, late)
    requires early <= now <= late
    ensures InWindow(startDate, endDate, now)
  {
  }

  /** The window holds exactly the instants between the two dates, boundaries included. */
  lemma WindowBounds(startDate: int, endDate: int, now: int)
    ensures InWindow(Some(startDate), Some(endDate), now) <==> startDate <= now <= endDate
    ensures InWindow(None, None, now)
  {
  }

  // ---------------------------------------------------------------- queries

  function IsActiveRecord(): Discount -> bool {
    (d: Discount) => d.isActive
  }

  function ActiveAt(now: int): Discount -> bool {
    (d: Discount) => d.isActive && InWindow(d.startDate, d.endDate, now)
  }

  function CategoryActiveAt(category: Option<string>, now: int): Discount -> bool {
    (d: Discount) => d.kind == Category && d.category == category && d.isActive && InWindow(d.startDate, d.endDate, now)
  }

  /** `getDiscounts`: exactly the active records, in stored order. */
  function ActiveOnly(ds: seq<Discount>): (r: seq<Discount>)
    ensures IsSubsequence(r, ds)
    ensures forall i :: 0 <= i < |r| ==> r[i].isActive
    ensures forall i :: 0 <= i < |ds| && ds[i].isActive ==> ds[i] in r
    ensures |r| == Count(ds, IsActiveRecord())
  {
    FilterIsSubsequence(ds, IsActiveRecord());
    Filter(ds, IsActiveRecord())
  }

  /** `getActiveDiscounts`: active records whose window contains `now`, in stored order. */
  function ActiveNow(ds: seq<Discount>, now: int): (r: seq<Discount>)
    ensures IsSubsequence(r, ds)
    ensures forall i :: 0 <= i < |r| ==> r[i].isActive && InWindow(r[i].startDate, r[i].endDate, now)
    ensures forall i :: 0 <= i < |ds| && ds[i].isActive && InWindow(ds[i].startDate, ds[i].endDate, now) ==> ds[i] in r
    ensures |r| == Count(ds, ActiveAt(now))
  {
    FilterIsSubsequence(ds, ActiveAt(now));
    Filter(ds, ActiveAt(now))
  }

  /** `getDiscountsByCategory`: the category records for `category` that are active now. */
  function ByCategory(ds: seq<Discount>, category: string, now: int): (r: seq<Discount>)
    ensures IsSubsequence(r, ds)
    ensures forall i :: 0 <= i < |r| ==>
      r[i].kind == Category && r[i].category == Some(category) && r[i].isActive && InWindow(r[i].startDate, r[i].endDate, now)
    ensures forall i :: 0 <= i < |ds| && CategoryActiveAt(Some(category), now)(ds[i]) ==> ds[i] in r
    ensures |r| == Count(ds, CategoryActiveAt(Some(category), now))
  {
    FilterIsSubsequence(ds, CategoryActiveAt(Some(category), now));
    Filter(ds, CategoryActiveAt(Some(category), now))
  }

  /** Every record active now is an active record. */
  lemma {:induction false} ActiveNowWithinActive(ds: seq<Discount>, now: int)
    ensures |ActiveNow(ds, now)| <= |ActiveOnly(ds)|
  {
    if |ds| > 0 {
      ActiveNowWithinActive(ds[1..], now);
    }
  }

  function HasId(id: string): Discount -> bool {
    (d: Discount) => d.id == id
  }

  /** `getDiscountById`: the first record with that id, or null. */
  function FindById(ds: seq<Discount>, id: string): (r: Option<Discount>)
    ensures r.None? <==> forall i :: 0 <= i < |ds| ==> ds[i].id != id
    ensures r.Some? ==> r.value.id == id && r.value in ds
    ensures r.Some? ==> exists i :: 0 <= i < |ds| && ds[i] == r.value && forall j :: 0 <= j < i ==> ds[j].id != id
  {
    Find(ds, HasId(id))
  }

  // ---------------------------------------------------------------- CRUD

  function FromDraft(draft: DiscountDraft, id: string): Discount {
    Discount(id, draft.kind, draft.value, draft.startDate, draft.endDate, draft.category, draft.couponCode,
             draft.isActive, draft.description, draft.minPurchase, draft.maxDiscount, draft.usageLimit, 0)
  }

  /** `createDiscount`: one record appended, with the fresh id and no uses; the others untouched. */
  function Created(ds: seq<Discount>, draft: DiscountDraft, freshId: string): (r: seq<Discount>)
    ensures |r| == |ds| + 1 && r[..|ds|] == ds
    ensures r[|ds|].id == freshId && r[|ds|].usedCount == 0
    ensures var d := r[|ds|];
      && d.kind == draft.kind && d.value == draft.value && d.startDate == draft.startDate && d.endDate == draft.endDate
      && d.category == draft.category && d.couponCode == draft.couponCode && d.isActive == draft.isActive
      && d.description == draft.description && d.minPurchase == draft.minPurchase
      && d.maxDiscount == draft.maxDiscount && d.usageLimit == draft.usageLimit
  {
    ds + [FromDraft(draft, freshId)]
  }

  function Pick<T>(patched: Option<T>, old_: T): T {
    if patched.Some? then patched.value else old_
  }

  /** `{ ...d, ...updates }`: every key the patch has replaces the old value. */
  function Merged(d: Discount, p: DiscountPatch): (r: Discount)
    ensures p.id.Some? ==> r.id == p.id.value
    ensures p.id.None? ==> r.id == d.id
    ensures p.kind.Some? ==> r.kind == p.kind.value
    ensures p.kind.None? ==> r.kind == d.kind
    ensures p.value.Some? ==> r.value == p.value.value
    ensures p.value.None? ==> r.value == d.value
    ensures p.startDate.Some? ==> r.startDate == p.startDate.value
    ensures p.startDate.None? ==> r.startDate == d.startDate
    ensures p.endDate.Some? ==> r.endDate == p.endDate.value
    ensures p.endDate.None? ==> r.endDate == d.endDate
    ensures p.category.Some? ==> r.category == p.category.value
    ensures p.category.None? ==> r.category == d.category
    ensures p.couponCode.Some? ==> r.couponCode == p.couponCode.value
    ensures p.couponCode.None? ==> r.couponCode == d.couponCode
    ensures p.isActive.Some? ==> r.isActive == p.isActive.value
    ensures p.isActive.None? ==> r.isActive == d.isActive
    ensures p.description.Some? ==> r.description == p.description.value
    ensures p.description.None? ==> r.description == d.description
    ensures p.minPurchase.Some? ==> r.minPurchase == p.minPurchase.value
    ensures p.minPurchase.None? ==> r.minPurchase == d.minPurchase
    ensures p.maxDiscount.Some? ==> r.maxDiscount == p.maxDiscount.value
    ensures p.maxDiscount.None? ==> r.maxDiscount == d.maxDiscount
    ensures p.usageLimit.Some? ==> r.usageLimit == p.usageLimit.value
    ensures p.usageLimit.None? ==> r.usageLimit == d.usageLimit
    ensures p.usedCount.Some? ==> r.usedCount == p.usedCount.value
    ensures p.usedCount.None? ==> r.usedCount == d.usedCount
  {
    Discount(
      Pick(p.id, d.id), Pick(p.kind, d.kind), Pick(p.value, d.value),
      Pick(p.startDate, d.startDate), Pick(p.endDate, d.endDate),
      Pick(p.category, d.category), Pick(p.couponCode, d.couponCode),
      Pick(p.isActive, d.isActive), Pick(p.description, d.description),
      Pick(p.minPurchase, d.minPurchase), Pick(p.maxDiscount, d.maxDiscount),
      Pick(p.usageLimit, d.usageLimit), Pick(p.usedCount, d.usedCount))
  }

  /** Merging an empty patch changes nothing; merging the same patch twice is merging it once. */
  lemma MergeLaws(d: Discount, p: DiscountPatch)
    ensures Merged(d, NoChanges) == d
    ensures Merged(Merged(d, p), p) == Merged(d, p)
  {
  }

  datatype Update = Update(discounts: seq<Discount>, result: Option<Discount>)

  /** `updateDiscount`: merge into the first record with the id and return it, or change nothing and return null. */
  function Updated(ds: seq<Discount>, id: string, patch: DiscountPatch): (r: Update)
    ensures |r.discounts| == |ds|
    ensures r.result.None? <==> forall i :: 0 <= i < |ds| ==> ds[i].id != id
    ensures r.result.None? ==> r.discounts == ds
    ensures r.result.Some? ==>
      var i := FindIndex(ds, HasId(id));
      0 <= i < |ds| && r.discounts == ds[i := Merged(ds[i], patch)] && r.result == Some(r.discounts[i])
  {
    var i := FindIndex(ds, HasId(id));
    if i == -1 then Update(ds, None)
    else
      var merged := Merged(ds[i], patch);
      Update(ds[i := merged], Some(merged))
  }

  datatype Deletion = Deletion(discounts: seq<Discount>, deleted: bool)

  /** `deleteDiscount`: splice out the first record with the id and answer true, or change nothing and answer false. */
  function Deleted(ds: seq<Discount>, id: string): (r: Deletion)
    ensures r.deleted <==> exists i :: 0 <= i < |ds| && ds[i].id == id
    ensures !r.deleted ==> r.discounts == ds
    ensures r.deleted ==>
      var i := FindIndex(ds, HasId(id));
      0 <= i < |ds| && |r.discounts| == |ds| - 1 && r.discounts == ds[..i] + ds[i + 1..]
  {
    var i := FindIndex(ds, HasId(id));
    if i == -1 then Deletion(ds, false)
    else Deletion(Splice(ds, i, 1, []), true)
  }

  /** Deleting a freshly created record by its new id gives back the list as it was. */
  lemma {:induction false} DeleteUndoesCreate(ds: seq<Discount>, draft: DiscountDraft, freshId: string)
    requires forall i :: 0 <= i < |ds| ==> ds[i].id != freshId
    ensures Deleted(Created(ds, draft, freshId), freshId) == Deletion(ds, true)
  {
    var created := Created(ds, draft, freshId);
    assert created[|ds|].id == freshId;
    var i := FindIndex(created, HasId(freshId));
    assert i == |ds| by {
      assert forall j :: 0 <= j < |ds| ==> created[j] == ds[j];
    }
    assert created[..i] + created[i + 1..] == ds;
  }

  // ---------------------------------------------------------------- coupons

  /** The coupon-code match of `validateCoupon` and `applyCoupon`: the code is compared upper-cased. */
  function MatchesCoupon(code: string): Discount -> bool {
    (d: Discount) => d.kind == Coupon && d.couponCode == Some(Strings.ToUpper(code))
  }

  /** `applyCoupon`: the first matching coupon's `usedCount` goes up by one when it has uses left. */
  datatype Redemption = Redemption(discounts: seq<Discount>, applied: bool)

  function CouponApplied(ds: seq<Discount>, code: string): (r: Redemption)
    ensures |r.discounts| == |ds|
    ensures r.applied <==> FindIndex(ds, MatchesCoupon(code)) >= 0 && HasUsesLeft(ds[FindIndex(ds, MatchesCoupon(code))])
    ensures !r.applied ==> r.discounts == ds
    ensures r.applied ==>
      var i := FindIndex(ds, MatchesCoupon(code));
      r.discounts == ds[i := ds[i].(usedCount := ds[i].usedCount + 1)]
  {
    var i := FindIndex(ds, MatchesCoupon(code));
    if i >= 0 && HasUsesLeft(ds[i]) then
      Redemption(ds[i := ds[i].(usedCount := ds[i].usedCount + 1)], true)
    else Redemption(ds, false)
  }

  /** `reduce((sum, d) => sum + d.usedCount, 0)`. */
  function SumUsed(ds: seq<Discount>): (total: int)
    ensures |ds| == 0 ==> total == 0
    ensures (forall i :: 0 <= i < |ds| ==> ds[i].usedCount >= 0) ==> total >= 0
    ensures (forall i :: 0 <= i < |ds| ==> ds[i].usedCount >= 0) ==> forall i :: 0 <= i < |ds| ==> total >= ds[i].usedCount
  {
    if |ds| == 0 then 0 else SumUsed(ds[..|ds| - 1]) + ds[|ds| - 1].usedCount
  }

  lemma {:induction false} SumUsedUpdate(ds: seq<Discount>, i: nat, d: Discount)
    requires i < |ds|
    ensures SumUsed(ds[i := d]) == SumUsed(ds) - ds[i].usedCount + d.usedCount
    decreases |ds|
  {
    var last := |ds| - 1;
    assert ds[i := d][..last] == if i == last then ds[..last] else ds[..last][i := d];
    if i < last {
      SumUsedUpdate(ds[..last], i, d);
    }
  }

  /** A redemption adds exactly one use to the total, and a refusal none. */
  lemma {:induction false} RedemptionCountsOnce(ds: seq<Discount>, code: string)
    ensures var r := CouponApplied(ds, code);
      SumUsed(r.discounts) == SumUsed(ds) + (if r.applied then 1 else 0)
  {
    var i := FindIndex(ds, MatchesCoupon(code));
    if CouponApplied(ds, code).applied {
      SumUsedUpdate(ds, i, ds[i].(usedCount := ds[i].usedCount + 1));
    }
  }

  /** No record with a usage limit has been used more often than it allows. */
  predicate WithinLimits(ds: seq<Discount>) {
    forall i :: 0 <= i < |ds| && ds[i].usageLimit.Some? && ds[i].usageLimit.value != 0 ==>
      ds[i].usedCount <= ds[i].usageLimit.value
  }

  /** Redemption never takes a coupon past its limit. */
  lemma RedemptionKeepsLimits(ds: seq<Discount>, code: string)
    requires WithinLimits(ds)
    ensures WithinLimits(CouponApplied(ds, code).discounts)
  {
  }

  /** Why `validateCoupon` refuses, in the order it checks. */
  datatype Rejection = UnknownCoupon | InactiveCoupon | ExhaustedCoupon | NotYetValid | ExpiredCoupon | BelowMinimum(minPurchase: real)

  datatype CouponCheck = Valid(coupon: Discount) | Invalid(reason: Rejection)

  /**
   * `validateCoupon`: find the first coupon with the upper-cased code, then reject in order
   * when it is unknown, inactive, used up, not started, ended, or the total is below a truthy
   * `minPurchase`; otherwise accept it.
   */
  function ValidateCoupon(ds: seq<Discount>, code: string, total: real, now: int): (r: CouponCheck)
    ensures Find(ds, MatchesCoupon(code)).None? <==> r == Invalid(UnknownCoupon)
    ensures r.Valid? <==>
      var found := Find(ds, MatchesCoupon(code));
      found.Some? && found.value.isActive && HasUsesLeft(found.value)
      && InWindow(found.value.startDate, found.value.endDate, now)
      && !(TruthyNumber(found.value.minPurchase) && total < found.value.minPurchase.value)
    ensures r.Valid? ==> r.coupon == Find(ds, MatchesCoupon(code)).value
  {
    match Find(ds, MatchesCoupon(code))
    case None => Invalid(UnknownCoupon)
    case Some(coupon) =>
      if !coupon.isActive then Invalid(InactiveCoupon)
      else if !HasUsesLeft(coupon) then Invalid(ExhaustedCoupon)
      else if coupon.startDate.Some? && now < coupon.startDate.value then Invalid(NotYetValid)
      else if coupon.endDate.Some? && now > coupon.endDate.value then Invalid(ExpiredCoupon)
      else if TruthyNumber(coupon.minPurchase) && total < coupon.minPurchase.value then Invalid(BelowMinimum(coupon.minPurchase.value))
      else Valid(coupon)
  }

  /** The rejection order: each reason is given only when every earlier check passed. */
  lemma RejectionOrder(ds: seq<Discount>, code: string, total: real, now: int)
    ensures var r := ValidateCoupon(ds, code, total, now);
      var found := Find(ds, MatchesCoupon(code));
      var started := found.Some? && (found.value.startDate.None? || now >= found.value.startDate.value);
      (r == Invalid(InactiveCoupon) <==> found.Some? && !found.value.isActive)
      && (r == Invalid(ExhaustedCoupon) <==> found.Some? && found.value.isActive && !HasUsesLeft(found.value))
      && (r == Invalid(NotYetValid) <==> found.Some? && found.value.isActive && HasUsesLeft(found.value) && !started)
      && (r == Invalid(ExpiredCoupon) <==>
            found.Some? && found.value.isActive && HasUsesLeft(found.value) && started
            && found.value.endDate.Some? && now > found.value.endDate.value)
      && (r.Invalid? && r.reason.BelowMinimum? <==>
            found.Some? && found.value.isActive && HasUsesLeft(found.value)
            && InWindow(found.value.startDate, found.value.endDate, now)
            && TruthyNumber(found.value.minPurchase) && total < found.value.minPurchase.value)
      && (r.Invalid? && r.reason.BelowMinimum? ==> r.reason.minPurchase == found.value.minPurchase.value)
  {
  }

  /** A coupon that validates can be redeemed. */
  lemma ValidCouponApplies(ds: seq<Discount>, code: string, total: real, now: int)
    requires ValidateCoupon(ds, code, total, now).Valid?
    ensures CouponApplied(ds, code).applied
  {
  }

  // ---------------------------------------------------------------- price calculation

  /** `calculatePercentageDiscount`: `price * percentage / 100`, capped by a truthy `maxDiscount`. */
  function PercentageDiscount(price: real, percentage: real, maxDiscount: Option<real>): (r: real)
    ensures r <= price * percentage / 100.0
    ensures TruthyNumber(maxDiscount) ==> r <= maxDiscount.value
    ensures r == price * percentage / 100.0 || (TruthyNumber(maxDiscount) && r == maxDiscount.value)
  {
    var amount := price * percentage / 100.0;
    if TruthyNumber(maxDiscount) then (if amount < maxDiscount.value then amount else maxDiscount.value) else amount
  }

  /** `calculateFixedDiscount`: `Math.min(fixedAmount, price)`. */
  function FixedDiscount(price: real, fixedAmount: real): (r: real)
    ensures r <= price && r <= fixedAmount
    ensures r == price || r == fixedAmount
  {
    if fixedAmount < price then fixedAmount else price
  }

  /** A product as `calculateProductDiscount` reads it. */
  datatype Product = Product(
    id: string,
    price: real,
    discountPrice: Option<real>,
    discountStartDate: Option<int>,
    discountEndDate: Option<int>,
    category: Option<string>)

  datatype ProductDiscount = ProductDiscount(
    productId: string,
    originalPrice: real,
    discountPrice: real,
    discountPercentage: Option<real>,
    discountAmount: real,
    isActive: bool,
    startDate: Option<int>,
    endDate: Option<int>)

  /** `amount / price * 100`; a zero price has no finite percentage. */
  function PercentOf(amount: real, price: real): Option<real> {
    if price == 0.0 then None else Some(amount / price * 100.0)
  }

  /** The starting point: the full price, nothing off, not active. */
  function NoDiscount(p: Product): (r: ProductDiscount)
    ensures r.discountPrice == p.price && r.discountAmount == 0.0 && !r.isActive
  {
    ProductDiscount(p.id, p.price, p.price, Some(0.0), 0.0, false, None, None)
  }

  /** The product's own truthy `discountPrice`, when it is below the price. */
  function DirectCandidate(p: Product, now: int): (r: Option<ProductDiscount>)
    ensures r.Some? <==> TruthyNumber(p.discountPrice) && p.discountPrice.value < p.price
    ensures r.Some? ==> (r.value.discountPrice == p.discountPrice.value < p.price
                         && r.value.discountAmount == p.price - r.value.discountPrice
                         && r.value.isActive == InWindow(p.discountStartDate, p.discountEndDate, now))
  {
    if TruthyNumber(p.discountPrice) && p.discountPrice.value < p.price then
      var amount := p.price - p.discountPrice.value;
      Some(ProductDiscount(p.id, p.price, p.discountPrice.value, PercentOf(amount, p.price), amount,
                           InWindow(p.discountStartDate, p.discountEndDate, now), p.discountStartDate, p.discountEndDate))
    else None
  }

  /** A record's percentage off the product price, capped by its truthy `maxDiscount`. */
  function Offer(p: Product, d: Discount): (r: ProductDiscount)
    ensures r.discountAmount == PercentageDiscount(p.price, d.value, d.maxDiscount)
    ensures r.discountPrice == p.price - r.discountAmount && r.isActive
  {
    var amount := PercentageDiscount(p.price, d.value, d.maxDiscount);
    ProductDiscount(p.id, p.price, p.price - amount, PercentOf(amount, p.price), amount, true, d.startDate, d.endDate)
  }

  /** The first category record for the product's category that is active now. */
  function CategoryCandidate(ds: seq<Discount>, p: Product, now: int): (r: Option<ProductDiscount>)
    ensures r.Some? <==> Find(ds, CategoryActiveAt(p.category, now)).Some?
    ensures r.Some? ==> r.value == Offer(p, Find(ds, CategoryActiveAt(p.category, now)).value)
  {
    match Find(ds, CategoryActiveAt(p.category, now))
    case None => None
    case Some(d) => Some(Offer(p, d))
  }

  /** Coupon records usable now: matching code, active, in their window, with uses left. */
  function CouponUsableAt(code: string, now: int): Discount -> bool {
    (d: Discount) => MatchesCoupon(code)(d) && d.isActive && InWindow(d.startDate, d.endDate, now) && HasUsesLeft(d)
  }

  /** The first usable coupon for a non-empty code, when the price reaches its `minPurchase || 0`. */
  function CouponCandidate(ds: seq<Discount>, p: Product, code: Option<string>, now: int): (r: Option<ProductDiscount>)
    ensures code.None? || code.value == [] ==> r.None?
    ensures code.Some? && code.value != [] ==>
      (r.Some? <==> Find(ds, CouponUsableAt(code.value, now)).Some?
                    && p.price >= OrElse(Find(ds, CouponUsableAt(code.value, now)).value.minPurchase, 0.0))
    ensures r.Some? ==>
      var found := Find(ds, CouponUsableAt(code.value, now));
      found.Some? && p.price >= OrElse(found.value.minPurchase, 0.0) && r.value == Offer(p, found.value)
  {
    if code.None? || code.value == [] then None
    else
      match Find(ds, CouponUsableAt(code.value, now))
      case None => None
      case Some(d) => if p.price >= OrElse(d.minPurchase, 0.0) then Some(Offer(p, d)) else None
  }

  function AsSeq<T>(o: Option<T>): seq<T> {
    if o.Some? then [o.value] else []
  }

  /** The candidates in the order the calculation considers them. */
  function Candidates(ds: seq<Discount>, p: Product, code: Option<string>, now: int): seq<ProductDiscount> {
    AsSeq(DirectCandidate(p, now)) + AsSeq(CategoryCandidate(ds, p, now)) + AsSeq(CouponCandidate(ds, p, code, now))
  }

  /** Walk the candidates, replacing the current best only by a strictly cheaper one. */
  function Cheapest(best: ProductDiscount, cs: seq<ProductDiscount>): (r: ProductDiscount)
    decreases |cs|
    ensures r.discountPrice <= best.discountPrice
    ensures r == best || r in cs
  {
    if |cs| == 0 then best
    else Cheapest(if cs[0].discountPrice < best.discountPrice then cs[0] else best, cs[1..])
  }

  /** The winner costs no more than the starting point or any candidate, and is one of them. */
  lemma {:induction false} CheapestIsMinimal(best: ProductDiscount, cs: seq<ProductDiscount>)
    decreases |cs|
    ensures Cheapest(best, cs).discountPrice <= best.discountPrice
    ensures forall i :: 0 <= i < |cs| ==> Cheapest(best, cs).discountPrice <= cs[i].discountPrice
    ensures Cheapest(best, cs) == best || Cheapest(best, cs) in cs
  {
    if |cs| > 0 {
      var next := if cs[0].discountPrice < best.discountPrice then cs[0] else best;
      CheapestIsMinimal(next, cs[1..]);
      assert forall i :: 1 <= i < |cs| ==> cs[i] == cs[1..][i - 1];
    }
  }

  /** Where the walk stops: the index in `[best] + cs` of the first offer at the lowest price. */
  lemma {:induction false} CheapestIndex(best: ProductDiscount, cs: seq<ProductDiscount>) returns (k: nat)
    decreases |cs|
    ensures k <= |cs| && ([best] + cs)[k] == Cheapest(best, cs)
    ensures forall j :: 0 <= j < k ==> ([best] + cs)[j].discountPrice > Cheapest(best, cs).discountPrice
  {
    if |cs| == 0 {
      k := 0;
    } else {
      var next := if cs[0].discountPrice < best.discountPrice then cs[0] else best;
      var w := Cheapest(next, cs[1..]);
      assert Cheapest(best, cs) == w;
      CheapestIsMinimal(next, cs[1..]);
      var k' := CheapestIndex(next, cs[1..]);
      ghost var all := [best] + cs;
      ghost var rest := [next] + cs[1..];
      assert forall j :: 1 <= j < |rest| ==> rest[j] == all[j + 1];
      if cs[0].discountPrice < best.discountPrice {
        k := k' + 1;
        assert rest[0] == all[1];
        assert all[0].discountPrice > w.discountPrice;
        assert forall j :: 1 <= j < k ==> all[j] == rest[j - 1];
      } else if k' == 0 {
        k := 0;
      } else {
        k := k' + 1;
        assert all[0] == rest[0] && all[0].discountPrice > w.discountPrice;
        assert all[1] == cs[0] && all[1].discountPrice > w.discountPrice;
        assert forall j :: 2 <= j < k ==> all[j] == rest[j - 1];
      }
    }
  }

  /**
   * Ties go to the earlier offer: the winner is the first of the starting point and the
   * candidates at the lowest price.
   */
  lemma {:induction false} CheapestIsFirst(best: ProductDiscount, cs: seq<ProductDiscount>)
    ensures var all := [best] + cs;
      exists k :: 0 <= k < |all| && all[k] == Cheapest(best, cs)
                  && forall j :: 0 <= j < k ==> all[j].discountPrice > all[k].discountPrice
  {
    var k := CheapestIndex(best, cs);
  }

  /** Walking two lists in turn is walking their concatenation. */
  lemma {:induction false} CheapestConcat(best: ProductDiscount, xs: seq<ProductDiscount>, ys: seq<ProductDiscount>)
    decreases |xs|
    ensures Cheapest(best, xs + ys) == Cheapest(Cheapest(best, xs), ys)
  {
    if |xs| > 0 {
      var next := if xs[0].discountPrice < best.discountPrice then xs[0] else best;
      assert (xs + ys)[1..] == xs[1..] + ys;
      CheapestConcat(next, xs[1..], ys);
    } else {
      assert xs + ys == ys;
    }
  }

  /** The best offer for a product: never above its price, and no candidate is cheaper. */
  function BestDiscount(ds: seq<Discount>, p: Product, code: Option<string>, now: int): (r: ProductDiscount)
    ensures r.discountPrice <= p.price
    ensures forall c :: c in Candidates(ds, p, code, now) ==> r.discountPrice <= c.discountPrice
    ensures r == NoDiscount(p) || r in Candidates(ds, p, code, now)
    ensures var all := [NoDiscount(p)] + Candidates(ds, p, code, now);
      exists k :: 0 <= k < |all| && all[k] == r && forall j :: 0 <= j < k ==> all[j].discountPrice > r.discountPrice
  {
    CheapestIsMinimal(NoDiscount(p), Candidates(ds, p, code, now));
    CheapestIsFirst(NoDiscount(p), Candidates(ds, p, code, now));
    Cheapest(NoDiscount(p), Candidates(ds, p, code, now))
  }

  /** A truthy `maxDiscount` caps the amount of a category or coupon offer. */
  lemma OfferRespectsCap(p: Product, d: Discount)
    requires TruthyNumber(d.maxDiscount)
    ensures Offer(p, d).discountAmount <= d.maxDiscount.value
    ensures Offer(p, d).discountPrice >= p.price - d.maxDiscount.value
  {
  }

  /**
   * A coupon accepted by `validateCoupon` for a total equal to the price, and usable now, is the
   * coupon candidate for that product.
   */
  lemma {:induction false} ValidCouponIsCandidate(ds: seq<Discount>, p: Product, code: string, now: int)
    requires code != [] && p.price >= 0.0
    requires ValidateCoupon(ds, code, p.price, now).Valid?
    ensures CouponCandidate(ds, p, Some(code), now) == Some(Offer(p, ValidateCoupon(ds, code, p.price, now).coupon))
  {
    var coupon := ValidateCoupon(ds, code, p.price, now).coupon;
    assert forall j :: 0 <= j < |ds| && CouponUsableAt(code, now)(ds[j]) ==> MatchesCoupon(code)(ds[j]);
    FindIndexNarrower(ds, MatchesCoupon(code), CouponUsableAt(code, now));
  }

  // ---------------------------------------------------------------- statistics

  datatype Stats = Stats(totalDiscounts: nat, activeDiscounts: nat, totalUsage: int, categoryDiscounts: nat, couponDiscounts: nat)

  function IsKind(kind: DiscountType): Discount -> bool {
    (d: Discount) => d.kind == kind
  }

  /** `getDiscountStats`. */
  function StatsOf(ds: seq<Discount>): (r: Stats)
    ensures r.totalDiscounts == |ds|
    ensures r.activeDiscounts == Count(ds, IsActiveRecord()) && r.activeDiscounts <= r.totalDiscounts
    ensures r.categoryDiscounts == Count(ds, IsKind(Category)) && r.couponDiscounts == Count(ds, IsKind(Coupon))
    ensures r.categoryDiscounts + r.couponDiscounts <= r.totalDiscounts
    ensures r.totalUsage == SumUsed(ds)
  {
    CountDisjoint(ds, IsKind(Category), IsKind(Coupon));
    Stats(|ds|, |Filter(ds, IsActiveRecord())|, SumUsed(ds),
          |Filter(ds, IsKind(Category))|, |Filter(ds, IsKind(Coupon))|)
  }

  // ---------------------------------------------------------------- the service

  /** `new Date('2024-01-01')`, `new Date('2024-06-30')`, `new Date('2024-12-31')` (UTC), in milliseconds. */
  const Jan1st2024 := 1704067200000
  const Jun30th2024 := 1719705600000
  const Dec31st2024 := 1735603200000

  /** The three records the service starts with. */
  function Seed(): seq<Discount> {
    [
      Discount("1", Percentage, 15.0, Some(Jan1st2024), Some(Dec31st2024), None, None, true,
               Some("Descuento general del 15%"), Some(50.0), Some(100.0), Some(1000), 0),
      Discount("2", Category, 20.0, Some(Jan1st2024), Some(Jun30th2024), Some("Electr\U{F3}nicos"), None, true,
               Some("Descuento del 20% en electr\U{F3}nicos"), Some(100.0), Some(200.0), Some(500), 0),
      Discount("3", Coupon, 10.0, None, None, None, Some("WELCOME10"), true,
               Some("Cup\U{F3}n de bienvenida 10%"), Some(25.0), Some(50.0), Some(100), 0)
    ]
  }

  /** No seeded record has been used. */
  lemma SeedUnused()
    ensures SumUsed(Seed()) == 0
  {
    var seed := Seed();
    assert SumUsed(seed[..0]) == 0;
    assert seed[..1][..0] == seed[..0] && seed[..2][..1] == seed[..1] && seed[..3][..2] == seed[..2];
  }

  /** The seeded records are within their limits and the welcome coupon validates from a total of 25. */
  lemma SeedFacts(now: int, total: real)
    ensures WithinLimits(Seed()) && SumUsed(Seed()) == 0
    ensures total >= 25.0 ==> ValidateCoupon(Seed(), "WELCOME10", total, now).Valid?
    ensures total < 25.0 ==> ValidateCoupon(Seed(), "WELCOME10", total, now) == Invalid(BelowMinimum(25.0))
  {
    SeedUnused();
    assert Strings.ToUpper("WELCOME10") == "WELCOME10";
    assert FindIndex(Seed(), MatchesCoupon("WELCOME10")) == 2;
  }

  class DiscountService {
    var discounts: seq<Discount>

    constructor()
      ensures discounts == Seed()
    {
      discounts := Seed();
    }

    function GetDiscounts(): (r: seq<Discount>)
      reads this
      ensures r == ActiveOnly(discounts)
    {
      ActiveOnly(discounts)
    }

    function GetDiscountById(id: string): (r: Option<Discount>)
      reads this
      ensures r == FindById(discounts, id)
    {
      FindById(discounts, id)
    }

    /** `createDiscount`, with the id `generateId` would produce given as `freshId`. */
    method CreateDiscount(draft: DiscountDraft, freshId: string) returns (created: Discount)
      modifies this
      ensures discounts == Created(old(discounts), draft, freshId)
      ensures created == discounts[|discounts| - 1]
    {
      created := FromDraft(draft, freshId);
      discounts := discounts + [created];
    }

    method UpdateDiscount(id: string, patch: DiscountPatch) returns (updated: Option<Discount>)
      modifies this
      ensures Update(discounts, updated) == Updated(old(discounts), id, patch)
    {
      var index := FindIndex(discounts, HasId(id));
      if index != -1 {
        discounts := discounts[index := Merged(discounts[index], patch)];
        return Some(discounts[index]);
      }
      return None;
    }

    method DeleteDiscount(id: string) returns (deleted: bool)
      modifies this
      ensures Deletion(discounts, deleted) == Deleted(old(discounts), id)
    {
      var index := FindIndex(discounts, HasId(id));
      if index != -1 {
        discounts := Splice(discounts, index, 1, []);
        return true;
      }
      return false;
    }

    /**
     * `calculateProductDiscount`: start from the full price, take the product's own discount,
     * then let the category offer and the coupon offer replace the best only when strictly cheaper.
     */
    method CalculateProductDiscount(product: Product, couponCode: Option<string>, now: int) returns (best: ProductDiscount)
      ensures best == BestDiscount(discounts, product, couponCode, now)
    {
      ghost var start := NoDiscount(product);
      best := NoDiscount(product);
      var direct := DirectCandidate(product, now);
      if direct.Some? {
        best := direct.value;
      }
      assert best == Cheapest(start, AsSeq(direct));
      var category := CategoryCandidate(discounts, product, now);
      if category.Some? && category.value.discountPrice < best.discountPrice {
        best := category.value;
      }
      assert best == Cheapest(start, AsSeq(direct) + AsSeq(category)) by {
        CheapestConcat(start, AsSeq(direct), AsSeq(category));
      }
      var coupon := CouponCandidate(discounts, product, couponCode, now);
      if coupon.Some? && coupon.value.discountPrice < best.discountPrice {
        best := coupon.value;
      }
      CheapestConcat(start, AsSeq(direct) + AsSeq(category), AsSeq(coupon));
    }

    function ValidateCouponAt(code: string, total: real, now: int): (r: CouponCheck)
      reads this
      ensures r == ValidateCoupon(discounts, code, total, now)
    {
      ValidateCoupon(discounts, code, total, now)
    }

    method ApplyCoupon(code: string) returns (applied: bool)
      modifies this
      ensures Redemption(discounts, applied) == CouponApplied(old(discounts), code)
    {
      var index := FindIndex(discounts, MatchesCoupon(code));
      if index >= 0 && HasUsesLeft(discounts[index]) {
        discounts := discounts[index := discounts[index].(usedCount := discounts[index].usedCount + 1)];
        return true;
      }
      return false;
    }

    function GetDiscountsByCategory(category: string, now: int): (r: seq<Discount>)
      reads this
      ensures r == ByCategory(discounts, category, now)
    {
      ByCategory(discounts, category, now)
    }

    function GetActiveDiscounts(now: int): (r: seq<Discount>)
      reads this
      ensures r == ActiveNow(discounts, now)
    {
      ActiveNow(discounts, now)
    }

    function GetDiscountStats(): (r: Stats)
      reads this
      ensures r == StatsOf(discounts)
    {
      StatsOf(discounts)
    }
  }
}
