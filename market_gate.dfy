/** The market-open gate of the API server (`isMarketOpen` in api-server/app.js):
    open on weekdays from 09:00 to 16:00 Korea time, both ends included, decided by
    comparing the four-digit HHMM number against 900 and 1600. The conversion of
    the wall clock to Korea time happens outside; the gate receives the weekday
    (0 = Sunday ... 6 = Saturday), hour and minute. */
module MarketGate {

  datatype Clock = Clock(day: int, hour: int, minute: int)

  predicate Weekend(c: Clock)
  {
    c.day == 0 || c.day == 6
  }

  function Hhmm(c: Clock): int
  {
    c.hour * 100 + c.minute
  }

  predicate IsMarketOpen(c: Clock)
  {
    if Weekend(c) then false
    else if Hhmm(c) < 900 || Hhmm(c) > 1600 then false
    else true
  }

  /** Saturday and Sunday are closed whatever the time. */
  lemma WeekendClosed(c: Clock)
    requires c.day == 0 || c.day == 6
    ensures !IsMarketOpen(c)
  {
  }

  /** On a weekday the gate is exactly the inclusive HHMM window. */
  lemma WeekdayWindow(c: Clock)
    requires c.day != 0 && c.day != 6
    ensures IsMarketOpen(c) <==> 900 <= c.hour * 100 + c.minute <= 1600
  {
  }

  /** For a real clock reading (hour 0..23, minute 0..59) the HHMM comparison is the
      same as comparing minutes since midnight with [540, 960], i.e. 09:00 to 16:00
      with both ends open. */
  lemma HhmmIsTimeOfDay(c: Clock)
    requires 0 <= c.hour < 24 && 0 <= c.minute < 60
    ensures IsMarketOpen(c) <==> !Weekend(c) && 9 * 60 <= c.hour * 60 + c.minute <= 16 * 60
  {
    if c.hour < 9 {
      assert c.hour * 100 + c.minute <= 8 * 100 + 59;
      assert c.hour * 60 + c.minute <= 8 * 60 + 59;
    } else if c.hour >= 16 {
      if c.hour == 16 {
        assert c.hour * 100 + c.minute == 1600 + c.minute;
      } else {
        assert c.hour * 100 >= 1700;
        assert c.hour * 60 >= 17 * 60;
      }
    } else {
      assert 900 <= c.hour * 100 <= 1500;
      assert 540 <= c.hour * 60 <= 900;
    }
  }

  /** The boundary readings: 09:00 and 16:00 are open, 08:59 and 16:01 closed. */
  lemma Boundaries()
    ensures IsMarketOpen(Clock(1, 9, 0)) && IsMarketOpen(Clock(5, 16, 0))
    ensures IsMarketOpen(Clock(5, 15, 59))
    ensures !IsMarketOpen(Clock(1, 8, 59)) && !IsMarketOpen(Clock(5, 16, 1))
    ensures !IsMarketOpen(Clock(6, 10, 0)) && !IsMarketOpen(Clock(0, 12, 0))
  {
  }
}
