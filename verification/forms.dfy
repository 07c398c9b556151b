/** The validators of app/forms.py. A field's data is None when it is
    missing or does not parse; WTForms' `DataRequired` rejects any falsy
    value (so an integer 0 or a float 0.0 as well as None), and
    `NumberRange` rejects None and values outside its bounds. Dates are day
    numbers. */
module Forms {
  import opened Common

  /** `DataRequired` on an integer field. */
  predicate Required(v: Option<int>) {
    IntTruthy(v)
  }

  /** `NumberRange(min=lo, max=hi)` on an integer field. */
  predicate InRange(v: Option<int>, lo: int, hi: int) {
    v.Some? && lo <= v.value <= hi
  }

  /** `DataRequired(), NumberRange(min=0)` on the stock fields of
      `SupplyForm` and `UpdateStockForm`, as written: the required check
      turns away 0 before the range is consulted. */
  predicate StockFieldValid(v: Option<int>) {
    Required(v) && v.Some? && v.value >= 0
  }

  /** The evidently intended rule for a stock count: present and not negative. */
  predicate StockFieldValidIntended(v: Option<int>) {
    v.Some? && v.value >= 0
  }

  /** As written, a stock field accepts exactly the positive counts: an empty
      shelf (or a minimum of zero) cannot be entered, although the range
      admits it. */
  lemma StockFieldRejectsZero(v: Option<int>)
    ensures StockFieldValid(v) <==> v.Some? && v.value > 0
    ensures StockFieldValid(v) <==> StockFieldValidIntended(v) && v != Some(0)
    ensures !StockFieldValid(Some(0)) && StockFieldValidIntended(Some(0))
  {
  }

  /** The intended rule widens the written one by exactly the value 0, and
      whatever it accepts is a count a shelf can hold. */
  lemma StockFieldIntendedAddsZero(v: Option<int>)
    ensures StockFieldValidIntended(v) <==> StockFieldValid(v) || v == Some(0)
    ensures StockFieldValidIntended(v) ==> v.value >= 0 && (v.value == 0 || Required(v))
  {
  }

  /** `SupplyForm`'s stock fields. */
  datatype SupplyStockFields = SupplyStockFields(currentStock: Option<int>, minimumStock: Option<int>)

  predicate SupplyStockFieldsValid(f: SupplyStockFields) {
    StockFieldValid(f.currentStock) && StockFieldValid(f.minimumStock)
  }

  /** `NumberRange(min=lo)` on a float field. */
  predicate AtLeastReal(v: Option<real>, lo: real) {
    v.Some? && v.value >= lo
  }

  /** `Optional(), NumberRange(min=0)` on `SupplyForm.unit_price`: a missing
      price ends the chain before the range is consulted, and a given price
      must not be negative. `Optional` looks at the submitted text, not at
      its truthiness, so a price of 0.0 is kept and reaches the range. Here
      None stands for a missing price only; text that does not parse as a
      float is turned away by the field itself and is not part of this
      model. */
  predicate UnitPriceValid(v: Option<real>) {
    v.None? || AtLeastReal(v, 0.0)
  }

  /** The unit price may be left out, may be 0.0 (unlike the stock fields,
      which refuse 0), and is otherwise any non-negative amount. */
  lemma UnitPriceRule(v: Option<real>)
    ensures UnitPriceValid(v) <==> v.None? || v.value >= 0.0
    ensures UnitPriceValid(None) && UnitPriceValid(Some(0.0)) && !StockFieldValid(Some(0))
    ensures v.Some? && v.value < 0.0 ==> !UnitPriceValid(v)
  {
  }

  /** `UpdateStockForm`: the new stock and the notes of the change, nothing else. */
  datatype UpdateStockForm = UpdateStockForm(currentStock: Option<int>, notes: string)

  predicate UpdateStockFormValid(f: UpdateStockForm) {
    StockFieldValid(f.currentStock)
  }

  /** The dates of `UnifiedStayForm`. */
  datatype StayDates = StayDates(checkIn: Option<int>, checkOut: Option<int>)

  /** `validate_check_out_date`: with both dates present, the check-out must
      come after the check-in. */
  predicate CheckOutValid(d: StayDates) {
    !(d.checkOut.Some? && d.checkIn.Some? && d.checkOut.value <= d.checkIn.value)
  }

  /** The check-out validator rejects exactly a check-out on or before a
      given check-in, and never a missing check-out (an open stay). */
  lemma CheckOutValidity(d: StayDates)
    ensures d.checkOut.None? ==> CheckOutValid(d)
    ensures d.checkIn.None? ==> CheckOutValid(d)
    ensures d.checkIn.Some? && d.checkOut.Some? ==> (CheckOutValid(d) <==> d.checkIn.value < d.checkOut.value)
  {
  }

  /** `DataRequired` on a float field. */
  predicate RequiredReal(v: Option<real>) {
    RealTruthy(v)
  }

  /** `payment_amount`: `DataRequired()`, `NumberRange(min=0.01)` and the
      custom `validate_payment_amount`, which turns away truthy amounts at
      or below zero. */
  predicate PaymentAmountValid(v: Option<real>) {
    RequiredReal(v) && (v.Some? && v.value >= 0.01) && !(RealTruthy(v) && v.value <= 0.0)
  }

  /** The accepted amounts are exactly those of at least 0.01; the custom
      validator never turns away an amount the range admits. */
  lemma PaymentAmountRule(v: Option<real>)
    ensures PaymentAmountValid(v) <==> v.Some? && v.value >= 0.01
    ensures (RequiredReal(v) && v.Some? && v.value >= 0.01) ==> !(RealTruthy(v) && v.value <= 0.0)
  {
  }

  /** `DataRequired(), NumberRange(min=0)` on
      `EmployeeDeliveryForm.delivered_amount`: as with the stock fields, the
      required check turns away the falsy 0.0 before the range is consulted. */
  predicate DeliveredAmountValid(v: Option<real>) {
    RequiredReal(v) && AtLeastReal(v, 0.0)
  }

  /** A delivered amount passes exactly when it is present and positive; an
      amount of 0.0, which the range admits, is refused. */
  lemma DeliveredAmountRule(v: Option<real>)
    ensures DeliveredAmountValid(v) <==> v.Some? && v.value > 0.0
    ensures !DeliveredAmountValid(None) && !DeliveredAmountValid(Some(0.0)) && AtLeastReal(Some(0.0), 0.0)
  {
  }

  /** The month and year of `CashClosureForm` and `MonthYearForm`: the month
      one of the choices 1..12 (coerced to int), the year required and in
      [2020, 2030]. */
  datatype Period = Period(month: Option<int>, year: Option<int>)

  predicate PeriodValid(p: Period) {
    Required(p.month) && InRange(p.month, 1, 12) && Required(p.year) && InRange(p.year, 2020, 2030)
  }

  /** A valid period names a calendar month of a year in the form's range. */
  lemma PeriodRange(p: Period)
    ensures PeriodValid(p) <==> (p.month.Some? && p.year.Some? &&
                                 1 <= p.month.value <= 12 && 2020 <= p.year.value <= 2030)
  {
  }
}
