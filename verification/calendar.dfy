/** Calendar arithmetic on day numbers (days since 1970-01-01 in the proleptic
    Gregorian calendar), the representation every date of the model uses. */
module Calendar {

  /** Day number of a calendar date (H. Hinnant's days_from_civil). */
  function DaysFromCivil(y: int, m: int, d: int): (z: int)
    requires 1 <= m <= 12 && 1 <= d <= 31
  {
    var y1 := if m <= 2 then y - 1 else y;
    var era := y1 / 400;
    var yoe := y1 - era * 400;
    var mp := if m > 2 then m - 3 else m + 9;
    var doy := (153 * mp + 2) / 5 + d - 1;
    var doe := yoe * 365 + yoe / 4 - yoe / 100 + doy;
    era * 146097 + doe - 719468
  }

  predicate IsLeap(y: int) {
    y % 4 == 0 && (y % 100 != 0 || y % 400 == 0)
  }

  function DaysInYear(y: int): int {
    if IsLeap(y) then 366 else 365
  }

  function DaysInMonth(y: int, m: int): int
    requires 1 <= m <= 12
  {
    if m == 2 then (if IsLeap(y) then 29 else 28)
    else if m == 4 || m == 6 || m == 9 || m == 11 then 30
    else 31
  }

  /** The month, counting on from month `m`, that holds day `d` (from 0) of
      month `m` of year `y`. */
  function MonthWithin(y: int, d: int, m: int): (r: int)
    requires 1 <= m <= 12
    ensures m <= r <= 12
    decreases 12 - m
  {
    if m == 12 || d < DaysInMonth(y, m) then m
    else MonthWithin(y, d - DaysInMonth(y, m), m + 1)
  }

  /** The month of the day `d` days after 1 January of year `y`; `d` may be
      negative or exceed the year, and whole years are stepped over. */
  function MonthFrom(y: int, d: int): (r: int)
    ensures 1 <= r <= 12
    decreases if d < 0 then 400 - d else d
  {
    if d < 0 then MonthFrom(y - 1, d + DaysInYear(y - 1))
    else if d >= DaysInYear(y) then MonthFrom(y + 1, d - DaysInYear(y))
    else MonthWithin(y, d, 1)
  }

  /** `date.month` of a day number. */
  function MonthOf(z: int): (m: int)
    ensures 1 <= m <= 12
  {
    MonthFrom(1970, z)
  }
}
