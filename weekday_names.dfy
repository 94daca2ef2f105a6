/**
  The example routine that names a day of the week, as written (its switch has
  a case without `break`), and the version its documentation and tests describe.
 */
module WeekdayNames {
  import opened Common

  /** The names the documentation gives to days 0 to 6, Sunday first. */
  const DayNames: seq<string> :=
    ["sunday", "monday", "tuesday", "wednesday", "thursday", "friday", "saturday"]

  /**
    wdayToStr as written: day 6 stores "saturday" but has no `break`, so control
    falls into `default`, which overwrites the result with NULL.
   */
  function WdayToStr(wday: int): (str: Option<string>)
    ensures str.Some? ==> 0 <= wday < |DayNames| && str.value == DayNames[wday]
    ensures wday == 6 ==> str == None
  {
    match wday
    case 0 => Some("sunday")
    case 1 => Some("monday")
    case 2 => Some("tuesday")
    case 3 => Some("wednesday")
    case 4 => Some("thursday")
    case 5 => Some("friday")
    case _ => None
  }

  /** Days 0 to 5 get their documented names; the result is non-NULL for those days and no other input. */
  lemma WdayToStrNamesWeekdays(wday: int)
    ensures WdayToStr(wday).Some? <==> 0 <= wday <= 5
    ensures 0 <= wday <= 5 ==> WdayToStr(wday) == Some(DayNames[wday])
  {
  }

  /** Different days among 0 to 5 get different names. */
  lemma WdayToStrInjective(a: int, b: int)
    requires WdayToStr(a).Some? && WdayToStr(b).Some? && a != b
    ensures WdayToStr(a) != WdayToStr(b)
  {
    WdayToStrNamesWeekdays(a);
    WdayToStrNamesWeekdays(b);
  }

  /** The documented and tested result for day 6 is "saturday"; the code returns NULL. */
  lemma WdayToStrSaturdayIsNull()
    ensures WdayToStr(6) == None
    ensures WdayToStr(6) != Some("saturday")
  {
  }

  /** wdayToStr as its documentation and tests describe it: day 6 breaks after "saturday". */
  function IntendedWdayToStr(wday: int): (str: Option<string>)
    ensures str.Some? <==> 0 <= wday <= 6
    ensures str.Some? ==> str.value == DayNames[wday]
  {
    if 0 <= wday < |DayNames| then Some(DayNames[wday]) else None
  }

  /** The intended routine names all seven days, returns NULL exactly outside 0 to 6, and differs from the code only on day 6. */
  lemma IntendedWdayToStrMatchesTests(wday: int)
    ensures IntendedWdayToStr(wday).Some? <==> 0 <= wday <= 6
    ensures IntendedWdayToStr(6) == Some("saturday") && IntendedWdayToStr(7) == None
    ensures wday != 6 ==> IntendedWdayToStr(wday) == WdayToStr(wday)
  {
    WdayToStrNamesWeekdays(wday);
  }
}
