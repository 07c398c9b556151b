/** The template filters `friendly_date` and `friendly_datetime` of
    app/__init__.py. A date is a day number, a datetime a day number and a
    minute of the day; `strftime('%d/%m/%Y')` is passed in as `formatDay`. */
module FriendlyDate {
  import opened Common

  /** What `friendly_date_filter` answers, before it is spelled out. */
  datatype DateLabel = NoDate | Today | Tomorrow | Yesterday | DayAfterTomorrow | DayBeforeYesterday
                     | DaysAgo(days: nat) | InDays(days: nat) | Formatted(day: int)

  /** `friendly_date_filter` for a date (a datetime is first cut to its
      date): a missing value has no date; within a week of today the label
      is relative, and further away the date is printed. */
  function Label(dt: Option<int>, today: int): (l: DateLabel)
    ensures dt.None? <==> l == NoDate
    ensures dt.Some? ==> var delta := dt.value - today;
      (l == Today <==> delta == 0) && (l == Tomorrow <==> delta == 1) && (l == Yesterday <==> delta == -1) &&
      (l == DayAfterTomorrow <==> delta == 2) && (l == DayBeforeYesterday <==> delta == -2) &&
      (l.DaysAgo? <==> -7 <= delta <= -3) && (l.InDays? <==> 3 <= delta <= 7) &&
      (l.Formatted? <==> delta < -7 || delta > 7)
  {
    if dt.None? then NoDate
    else
      var delta := dt.value - today;
      if delta == 0 then Today
      else if delta == 1 then Tomorrow
      else if delta == -1 then Yesterday
      else if delta == 2 then DayAfterTomorrow
      else if delta == -2 then DayBeforeYesterday
      else if -7 <= delta < 0 then DaysAgo(Abs(delta))
      else if 0 < delta <= 7 then InDays(delta)
      else Formatted(dt.value)
  }

  /** The day offset a relative label stands for. */
  function OffsetOf(l: DateLabel): Option<int> {
    match l
    case Today => Some(0)
    case Tomorrow => Some(1)
    case Yesterday => Option<int>.Some(-1)
    case DayAfterTomorrow => Some(2)
    case DayBeforeYesterday => Option<int>.Some(-2)
    case DaysAgo(n) => Option<int>.Some(-(n as int))
    case InDays(n) => Some(n)
    case _ => None
  }

  /** Within a week of today the label determines the date, and beyond it
      the label carries the date itself: no two dates share a label. */
  lemma LabelDeterminesDate(day: int, today: int)
    ensures -7 <= day - today <= 7 ==> OffsetOf(Label(Some(day), today)) == Some(day - today)
    ensures day - today < -7 || day - today > 7 ==> Label(Some(day), today) == Formatted(day)
  {
  }

  /** The label spelled out as the filter returns it. */
  function Text(l: DateLabel, formatDay: int -> string): string {
    match l
    case NoDate => "Sin fecha"
    case Today => "Hoy"
    case Tomorrow => "Mañana"
    case Yesterday => "Ayer"
    case DayAfterTomorrow => "Pasado mañana"
    case DayBeforeYesterday => "Anteayer"
    case DaysAgo(n) => "Hace " + ShowNat(n) + " días"
    case InDays(n) => "En " + ShowNat(n) + " días"
    case Formatted(d) => formatDay(d)
  }

  /** The count of days in a relative text is the distance from today. */
  lemma RelativeTextCount(day: int, today: int, formatDay: int -> string)
    requires 3 <= Abs(day - today) <= 7
    ensures var t := Text(Label(Some(day), today), formatDay);
      (day < today ==> t == "Hace " + ShowNat(today - day) + " días") &&
      (day > today ==> t == "En " + ShowNat(day - today) + " días") &&
      ParseInt(ShowNat(Abs(day - today))) == Some(Abs(day - today))
  {
    ShowNatValue(Abs(day - today));
    ParseDigits(ShowNat(Abs(day - today)));
  }

  /** Two digits with a leading zero: `%H` and `%M`. */
  function Pad2(n: nat): (s: string)
    requires n < 100
    ensures |s| == 2 && IsDigit(s[0]) && IsDigit(s[1])
  {
    [DigitChar(n / 10), DigitChar(n % 10)]
  }

  /** `strftime('%H:%M')` of a minute of the day. */
  function Clock(minute: nat): (s: string)
    requires minute < 1440
    ensures |s| == 5 && s[2] == ':'
  {
    Pad2(minute / 60) + ":" + Pad2(minute % 60)
  }

  /** The clock text reads back as the hour and the minute it shows. */
  lemma ClockReadsBack(minute: nat)
    requires minute < 1440
    ensures ParseInt(Clock(minute)[..2]) == Some(minute / 60)
    ensures ParseInt(Clock(minute)[3..]) == Some(minute % 60)
  {
    var c := Clock(minute);
    Pad2Value(minute / 60);
    Pad2Value(minute % 60);
    assert c[..2] == Pad2(minute / 60);
    assert c[3..] == Pad2(minute % 60);
  }

  lemma Pad2Value(n: nat)
    requires n < 100
    ensures ParseInt(Pad2(n)) == Some(n)
  {
    var s := Pad2(n);
    assert s[..1] == [s[0]];
    assert DigitsValue(s[..1]) == DigitValue(s[0]);
  }

  /** A datetime: its day number and its minute of the day. */
  datatype Moment = Moment(day: int, minute: nat)

  /** `friendly_datetime_filter`: the date label, a space and the clock
      time; the test for Hoy, Mañana and Ayer picks between two identical
      texts. */
  function DateTimeText(dt: Option<Moment>, today: int, formatDay: int -> string): string
    requires dt.Some? ==> dt.value.minute < 1440
  {
    if dt.None? then "Sin fecha"
    else Text(Label(Some(dt.value.day), today), formatDay) + " " + Clock(dt.value.minute)
  }

  /** Every datetime gets its time appended, whatever its label, and the
      part before it is the date filter's text. */
  lemma DateTimeAlwaysHasTime(m: Moment, today: int, formatDay: int -> string)
    requires m.minute < 1440
    ensures var t := DateTimeText(Some(m), today, formatDay);
      var date := Text(Label(Some(m.day), today), formatDay);
      |t| == |date| + 6 && t[..|date|] == date && t[|date|..] == " " + Clock(m.minute)
  {
    var date := Text(Label(Some(m.day), today), formatDay);
    var t := DateTimeText(Some(m), today, formatDay);
    assert t == date + (" " + Clock(m.minute));
  }
}
