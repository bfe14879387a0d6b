/**
 * The pure helpers of `DiscountsComponent`: activity and status badges, usage percentage and
 * its colour, form error messages, type labels, and the validation rules the form applies to
 * each discount type.
 */
module DiscountsView {
  import opened Wrappers
  import opened Discounts
  import Strings

  // ---------------------------------------------------------------- status

  /** `isDiscountActive` of the component: inside the window and flagged active. */
  predicate IsDiscountActive(d: Discount, now: int): (r: bool)
    ensures r <==> d.isActive && InWindow(d.startDate, d.endDate, now)
  {
    if d.startDate.Some? && now < d.startDate.value then false
    else if d.endDate.Some? && now > d.endDate.value then false
    else d.isActive
  }

  /** The component's notion agrees with the records `getActiveDiscounts` returns. */
  lemma ComponentAgreesWithService(ds: seq<Discount>, d: Discount, now: int)
    requires d in ds
    ensures d in ActiveNow(ds, now) <==> IsDiscountActive(d, now)
  {
  }

  datatype Status = Inactive | Expired | Active

  /** The three badge states: not flagged active, outside the window, or active. */
  function StatusOf(d: Discount, now: int): (s: Status)
    ensures s == Active <==> IsDiscountActive(d, now)
    ensures s == Inactive <==> !d.isActive
  {
    if !d.isActive then Inactive
    else if !IsDiscountActive(d, now) then Expired
    else Active
  }

  /** `getDiscountStatusText`. */
  function StatusText(d: Discount, now: int): (r: string)
    ensures r == "Inactivo" <==> !d.isActive
    ensures r == "Expirado" <==> d.isActive && !InWindow(d.startDate, d.endDate, now)
    ensures r == "Activo" <==> d.isActive && InWindow(d.startDate, d.endDate, now)
  {
    match StatusOf(d, now)
    case Inactive => "Inactivo"
    case Expired => "Expirado"
    case Active => "Activo"
  }

  /** `getDiscountStatusClass`. */
  function StatusClass(d: Discount, now: int): (r: string)
    ensures r == "badge bg-secondary" <==> !d.isActive
    ensures r == "badge bg-warning" <==> d.isActive && !InWindow(d.startDate, d.endDate, now)
    ensures r == "badge bg-success" <==> d.isActive && InWindow(d.startDate, d.endDate, now)
  {
    match StatusOf(d, now)
    case Inactive => "badge bg-secondary"
    case Expired => "badge bg-warning"
    case Active => "badge bg-success"
  }

  /**
   * Text and badge always describe the same state: two records get the same text exactly when
   * they get the same badge. A flagged record whose window has not opened yet reads "Expirado".
   */
  lemma StatusTextMatchesClass(d: Discount, e: Discount, now: int)
    ensures StatusText(d, now) == StatusText(e, now) <==> StatusClass(d, now) == StatusClass(e, now)
    ensures d.isActive && d.startDate.Some? && now < d.startDate.value ==> StatusText(d, now) == "Expirado"
  {
  }

  // ---------------------------------------------------------------- usage

  /** `Math.round`: the nearest integer, halves rounded up. */
  function Round(x: real): (r: int)
    ensures r as real - 0.5 <= x < r as real + 0.5
  {
    (x + 0.5).Floor
  }

  /** `getUsagePercentage`: 0 for a missing or zero limit, else the rounded share used. */
  function UsagePercentage(d: Discount): (r: int)
    ensures d.usageLimit.None? || d.usageLimit.value == 0 ==> r == 0
    ensures d.usageLimit.Some? && d.usageLimit.value != 0 ==>
      var share := d.usedCount as real / d.usageLimit.value as real * 100.0;
      r as real - 0.5 <= share < r as real + 0.5
  {
    if d.usageLimit.None? || d.usageLimit.value == 0 then 0
    else Round(d.usedCount as real / d.usageLimit.value as real * 100.0)
  }

  /** A coupon within its limit never shows more than 100 %. */
  lemma UsageWithinLimitAtMost100(d: Discount)
    requires d.usageLimit.Some? && d.usageLimit.value > 0 && 0 <= d.usedCount <= d.usageLimit.value
    ensures 0 <= UsagePercentage(d) <= 100
  {
    var share := d.usedCount as real / d.usageLimit.value as real;
    assert 0.0 <= share <= 1.0;
  }

  /** `getUsageClass` on a percentage. */
  function UsageClass(percentage: int): (r: string)
    ensures r == "text-danger" <==> percentage >= 90
    ensures r == "text-warning" <==> 75 <= percentage < 90
    ensures r == "text-success" <==> percentage < 75
  {
    if percentage >= 90 then "text-danger"
    else if percentage >= 75 then "text-warning"
    else "text-success"
  }

  function Severity(cls: string): nat {
    if cls == "text-danger" then 2 else if cls == "text-warning" then 1 else 0
  }

  /** A higher percentage never shows a milder colour. */
  lemma UsageClassMonotone(p: int, q: int)
    requires p <= q
    ensures Severity(UsageClass(p)) <= Severity(UsageClass(q))
    ensures UsageClass(q) == "text-success" ==> UsageClass(p) == "text-success"
  {
  }

  // ---------------------------------------------------------------- errors

  /** The validation errors a form control can carry (`null` when valid). */
  datatype ControlErrors = ControlErrors(
    required: bool,
    min: Option<int>,
    max: Option<int>,
    pattern: bool,
    invalidDateRange: bool)

  datatype Control = Control(errors: Option<ControlErrors>, touched: bool)

  const RequiredMessage := "Este campo es requerido"
  const PatternMessage := "Formato inv\U{E1}lido"
  const DateRangeMessage := "La fecha de fin debe ser posterior a la fecha de inicio"

  function MinMessage(min: int): string { "El valor m\U{ED}nimo es " + Strings.IntToString(min) }
  function MaxMessage(max: int): string { "El valor m\U{E1}ximo es " + Strings.IntToString(max) }

  /**
   * `getErrorMessage`: empty unless the control exists, has errors and was touched; then the
   * first of required, min, max, pattern and date range that is set.
   */
  function ErrorMessage(control: Option<Control>): (r: string)
    ensures control.None? || control.value.errors.None? || !control.value.touched ==> r == ""
    ensures control.Some? && control.value.errors.Some? && control.value.touched ==>
      var e := control.value.errors.value;
      (e.required ==> r == RequiredMessage)
      && (!e.required && e.min.Some? ==> r == MinMessage(e.min.value))
      && (!e.required && e.min.None? && e.max.Some? ==> r == MaxMessage(e.max.value))
      && (!e.required && e.min.None? && e.max.None? && e.pattern ==> r == PatternMessage)
      && (!e.required && e.min.None? && e.max.None? && !e.pattern ==> r == (if e.invalidDateRange then DateRangeMessage else ""))
  {
    if control.Some? && control.value.errors.Some? && control.value.touched then
      var e := control.value.errors.value;
      if e.required then RequiredMessage
      else if e.min.Some? then MinMessage(e.min.value)
      else if e.max.Some? then MaxMessage(e.max.value)
      else if e.pattern then PatternMessage
      else if e.invalidDateRange then DateRangeMessage
      else ""
    else ""
  }

  /** A touched control with errors shows a non-empty message exactly when one of the five known errors is set. */
  lemma ErrorShownWhenTouched(control: Control)
    requires control.touched && control.errors.Some?
    ensures var e := control.errors.value;
      ErrorMessage(Some(control)) != "" <==> e.required || e.min.Some? || e.max.Some? || e.pattern || e.invalidDateRange
  {
  }

  // ---------------------------------------------------------------- labels

  /** `discountTypes`: form value and label. */
  const DiscountTypes: seq<(string, string)> := [
    ("percentage", "Porcentaje (%)"),
    ("fixed", "Cantidad fija ($)"),
    ("category", "Por categor\U{ED}a"),
    ("coupon", "Cup\U{F3}n")
  ]

  /** `getDiscountTypeLabel`: the label of the first entry with that value, else the value itself. */
  function DiscountTypeLabel(kind: string): (r: string)
    ensures (exists i :: 0 <= i < |DiscountTypes| && DiscountTypes[i].0 == kind) ==> r != kind
    ensures (forall i :: 0 <= i < |DiscountTypes| ==> DiscountTypes[i].0 != kind) ==> r == kind
    ensures forall i :: (0 <= i < |DiscountTypes| && DiscountTypes[i].0 == kind
                         && (forall j :: 0 <= j < i ==> DiscountTypes[j].0 != kind)) ==> r == DiscountTypes[i].1
  {
    match JsArray.Find(DiscountTypes, (t: (string, string)) => t.0 == kind)
    case Some(t) => t.1
    case None => kind
  }

  /** Each known type gets the label listed beside it. */
  lemma TypeLabels()
    ensures DiscountTypeLabel("percentage") == "Porcentaje (%)"
    ensures DiscountTypeLabel("fixed") == "Cantidad fija ($)"
    ensures DiscountTypeLabel("category") == "Por categor\U{ED}a"
    ensures DiscountTypeLabel("coupon") == "Cup\U{F3}n"
  {
    var t := DiscountTypes;
    assert t[0].0 == "percentage" && t[1].0 == "fixed" && t[2].0 == "category" && t[3].0 == "coupon";
    assert t[0].0 != "fixed";
    assert t[0].0 != "category" && t[1].0 != "category";
    assert t[0].0 != "coupon" && t[1].0 != "coupon" && t[2].0 != "coupon";
  }

  /** The four known types get four different labels. */
  lemma LabelsDistinct()
    ensures forall i, j :: 0 <= i < j < |DiscountTypes| ==>
      DiscountTypeLabel(DiscountTypes[i].0) != DiscountTypeLabel(DiscountTypes[j].0)
  {
    TypeLabels();
  }

  // ---------------------------------------------------------------- validation rules

  /** The validators of the `value` control. */
  datatype ValueRule = ValueRule(required: bool, min: Option<real>, max: Option<real>)

  /**
   * The validators the form holds: `category` required or not, `couponCode` required and
   * restricted to `^[A-Z0-9]+$` or not, and the `value` rule.
   */
  datatype FormRules = FormRules(categoryRequired: bool, couponCodeChecked: bool, value: ValueRule)

  /** As built by the constructor: `value` required and at least 0, nothing on the others. */
  const InitialRules := FormRules(false, false, ValueRule(true, Some(0.0), None))

  const Bounded := ValueRule(true, Some(0.0), Some(100.0))
  const NonNegative := ValueRule(true, Some(0.0), None)

  /**
   * The `type` change handler: `category` and `couponCode` lose their validators; each known type
   * installs its own; an unknown type (such as the empty choice) leaves the old `value` rule in place.
   */
  function RulesAfterTypeChange(prev: FormRules, kind: string): (r: FormRules)
    ensures r.categoryRequired <==> kind == "category"
    ensures r.couponCodeChecked <==> kind == "coupon"
    ensures kind == "percentage" || kind == "category" || kind == "coupon" ==> r.value == Bounded
    ensures kind == "fixed" ==> r.value == NonNegative
    ensures kind != "percentage" && kind != "category" && kind != "coupon" && kind != "fixed" ==> r.value == prev.value
  {
    var cleared := prev.(categoryRequired := false, couponCodeChecked := false);
    if kind == "category" then cleared.(categoryRequired := true, value := Bounded)
    else if kind == "coupon" then cleared.(couponCodeChecked := true, value := Bounded)
    else if kind == "percentage" then cleared.(value := Bounded)
    else if kind == "fixed" then cleared.(value := NonNegative)
    else cleared
  }

  /** `Validators.required/min/max` on a number that may be `null`. */
  predicate ValueAccepted(rule: ValueRule, value: Option<real>) {
    (rule.required ==> value.Some?)
    && (value.Some? && rule.min.Some? ==> value.value >= rule.min.value)
    && (value.Some? && rule.max.Some? ==> value.value <= rule.max.value)
  }

  /** After choosing a type, the accepted values are [0, 100] for the percentage-like types and [0, ∞) for fixed. */
  lemma ValueRangePerType(prev: FormRules, kind: string, v: real)
    ensures kind in {"percentage", "category", "coupon"} ==>
      (ValueAccepted(RulesAfterTypeChange(prev, kind).value, Some(v)) <==> 0.0 <= v <= 100.0)
    ensures kind == "fixed" ==> (ValueAccepted(RulesAfterTypeChange(prev, kind).value, Some(v)) <==> 0.0 <= v)
    ensures ValueAccepted(RulesAfterTypeChange(prev, kind).value, None) ==> !RulesAfterTypeChange(prev, kind).value.required
  {
  }

  /** Switching from a percentage type back to the empty choice keeps the upper bound of 100. */
  lemma StaleBoundAfterClearingType()
    ensures RulesAfterTypeChange(RulesAfterTypeChange(InitialRules, "percentage"), "").value == Bounded
    ensures !ValueAccepted(RulesAfterTypeChange(RulesAfterTypeChange(InitialRules, "percentage"), "").value, Some(150.0))
  {
  }

  /** `^[A-Z0-9]+$`. */
  predicate CouponCodeFormat(code: string) {
    |code| > 0 && forall i :: 0 <= i < |code| ==> Strings.IsAsciiUpper(code[i]) || Strings.IsAsciiDigit(code[i])
  }

  /**
   * The `couponCode` control with its coupon validators: `required` rejects the empty code and
   * `pattern` (which skips empty values) rejects anything else outside the format.
   */
  predicate CouponCodeAccepted(rules: FormRules, code: string): (r: bool)
    ensures !rules.couponCodeChecked ==> r
    ensures rules.couponCodeChecked && r ==> |code| > 0
  {
    rules.couponCodeChecked ==> |code| > 0 && (|code| == 0 || CouponCodeFormat(code))
  }

  /**
   * With coupon validators on, a code passes exactly when it has the format, and such a code is
   * already upper case, so the service's upper-cased comparison matches it as entered.
   */
  lemma {:induction false} AcceptedCodeIsUpperCase(rules: FormRules, code: string)
    requires rules.couponCodeChecked
    ensures CouponCodeAccepted(rules, code) <==> CouponCodeFormat(code)
    ensures CouponCodeFormat(code) ==> Strings.ToUpper(code) == code
  {
    if CouponCodeFormat(code) {
      forall i | 0 <= i < |code|
        ensures Strings.ToUpper(code)[i] == code[i]
      {
        assert !Strings.IsAsciiLower(code[i]);
      }
    }
  }

  /** The end-date handler: both dates set and the end not after the start. */
  predicate InvalidDateRange(startDate: Option<int>, endDate: Option<int>): (r: bool)
    ensures r ==> startDate.Some? && endDate.Some?
    ensures startDate.Some? && endDate.Some? && startDate.value < endDate.value ==> !r
    ensures r <==> startDate.Some? && endDate.Some? && endDate.value <= startDate.value
  {
    startDate.Some? && endDate.Some? && endDate.value <= startDate.value
  }

  /** Dates the form accepts give a window that is open on at least its first and last instant. */
  lemma AcceptedRangeIsNonEmpty(startDate: int, endDate: int)
    requires !InvalidDateRange(Some(startDate), Some(endDate))
    ensures startDate < endDate
    ensures InWindow(Some(startDate), Some(endDate), startDate) && InWindow(Some(startDate), Some(endDate), endDate)
  {
  }

  // ---------------------------------------------------------------- toggling

  /** The patch `toggleDiscountStatus` sends: `{ isActive: !discount.isActive }`. */
  function TogglePatch(d: Discount): DiscountPatch {
    NoChanges.(isActive := Some(!d.isActive))
  }

  /** Toggling the first record with an id flips its flag and leaves every other field as it was. */
  lemma {:induction false} ToggleFlipsOnly(ds: seq<Discount>, i: nat)
    requires i < |ds| && forall j :: 0 <= j < i ==> ds[j].id != ds[i].id
    ensures var u := Updated(ds, ds[i].id, TogglePatch(ds[i]));
      u.result == Some(ds[i].(isActive := !ds[i].isActive))
      && u.discounts == ds[i := ds[i].(isActive := !ds[i].isActive)]
  {
    assert JsArray.FindIndex(ds, HasId(ds[i].id)) == i;
  }
}
