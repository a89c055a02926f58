// whitelight's SunsetChecker: the sunset instant is cached per UTC calendar
// day and turned into signed minutes since sunset.
//
// Instants are seconds on one time line (as `real`). The clocks (`gmtime`,
// `datetime.utcnow`, `datetime.now`) are parameters; the ephemeris
// (`Observer.next_setting(Sun())` for the fixed location) is the function
// `nextSetting`, given the observer date string.
module WhitelightSunset {
  import opened Common

  class SunsetChecker {
    const nextSetting: string -> real
    var currentDate: string
    /** The UTC instant at which currentDate was last changed. */
    var midnight: real
    var sunsetDate: string
    var sunsetTime: real

    /** The cached sunset is the ephemeris' answer for the cached sunset date. */
    ghost predicate Valid()
      reads this
    {
      IsDateString(currentDate) && sunsetTime == nextSetting(sunsetDate + NoonSuffix)
    }

    constructor (nextSetting: string -> real, utcDate: string, utcNow: real)
      requires IsDateString(utcDate)
      ensures Valid() && this.nextSetting == nextSetting
      ensures currentDate == utcDate && sunsetDate == utcDate && midnight == utcNow
    {
      this.nextSetting := nextSetting;
      currentDate := InvalidDate;
      midnight := 0.0;  // unset until the first date update, which always fires
      sunsetDate := InvalidDate;
      sunsetTime := nextSetting(InvalidDate + NoonSuffix);
      new;
      InvalidDateIsNoDate();
      UpdateCurrentDate(utcDate, utcNow);
      UpdateSunsetTime();
    }

    /** `update`: refresh the date; recompute the sunset only when its date is stale.
        A second update on the same day changes nothing. */
    method Update(utcDate: string, utcNow: real)
      requires Valid() && IsDateString(utcDate)
      modifies this
      ensures Valid()
      ensures currentDate == utcDate && sunsetDate == utcDate
      ensures sunsetTime == nextSetting(utcDate + NoonSuffix)
      ensures midnight == if old(currentDate) == utcDate then old(midnight) else utcNow
      ensures old(currentDate) == utcDate && old(sunsetDate) == utcDate ==> unchanged(this)
    {
      UpdateCurrentDate(utcDate, utcNow);
      if !IsSunsetTimeUpdated() {
        UpdateSunsetTime();
      }
    }

    /** `_update_current_date`: `midnight` is reset only when the date string changes. */
    method UpdateCurrentDate(utcDate: string, utcNow: real)
      modifies this`currentDate, this`midnight
      ensures currentDate == utcDate
      ensures midnight == if old(currentDate) == utcDate then old(midnight) else utcNow
    {
      if utcDate != currentDate {
        currentDate := utcDate;
        midnight := utcNow;
      }
    }

    predicate IsSunsetTimeUpdated()
      reads this
    {
      sunsetDate == currentDate
    }

    /** `_update_sunset_time`: ask the ephemeris for the sunset after noon of the current date. */
    method UpdateSunsetTime()
      modifies this`sunsetDate, this`sunsetTime
      ensures sunsetDate == currentDate && sunsetTime == nextSetting(currentDate + NoonSuffix)
    {
      sunsetDate := currentDate;
      sunsetTime := nextSetting(sunsetDate + NoonSuffix);
    }

    /** `get_minutes_since_sunset`: both instants are measured from `midnight`, which cancels;
        negative before sunset, positive after. */
    function MinutesSinceSunset(now: real): (m: real)
      reads this
      ensures m == (now - sunsetTime) / 60.0
      ensures m < 0.0 <==> now < sunsetTime
      ensures m > 0.0 <==> now > sunsetTime
    {
      var secondsSinceMidnightNow := now - midnight;
      var secondsSinceMidnightSunset := sunsetTime - midnight;
      (secondsSinceMidnightSunset - secondsSinceMidnightNow) / -60.0
    }

    /** `is_sunset`, as written: true while the sun has not set yet, and at sunset. */
    predicate IsSunset(now: real)
      reads this
      ensures IsSunset(now) <==> now <= sunsetTime
    {
      MinutesSinceSunset(now) <= 0.0
    }
  }
}
