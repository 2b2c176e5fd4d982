/** The shift widget: the running duration of the current shift and the start and
    end forms, which hand the parsed figures to the store. Start times come in as
    milliseconds since the epoch; reading them from the stored text is not part of
    this model. */
module ShiftManagement {
  import opened Base
  import opened Text
  import opened DataContext

  const MillisPerHour := 1000 * 60 * 60
  const MillisPerMinute := 1000 * 60

  /** JavaScript's `%`: the remainder takes the sign of the dividend. */
  function JsRem(a: int, b: int): (r: int)
    requires b > 0
    ensures a >= 0 ==> 0 <= r < b
    ensures a < 0 ==> -b < r <= 0
    ensures (if a >= 0 then r else -r) == (if a >= 0 then a else -a) % b
  {
    if a >= 0 then a % b else -((-a) % b)
  }

  /** `getShiftDuration` as (hours, minutes): `Math.floor` of a division by a positive
      constant is Dafny's `/`. */
  function Duration(current: Option<Shift>, startMillis: int, nowMillis: int): (r: (int, int))
    ensures current.None? ==> r == (0, 0)
  {
    if current.None? then (0, 0)
    else
      var diff := nowMillis - startMillis;
      (diff / MillisPerHour, JsRem(diff, MillisPerHour) / MillisPerMinute)
  }

  /** From a start in the past the minutes stay in 0..59 and the two figures together
      are the whole minutes elapsed. */
  lemma DurationParts(current: Option<Shift>, startMillis: int, nowMillis: int)
    requires current.Some? && startMillis <= nowMillis
    ensures var (h, m) := Duration(current, startMillis, nowMillis);
            0 <= m <= 59 && h >= 0 && h * 60 + m == (nowMillis - startMillis) / MillisPerMinute
  {
    var diff := nowMillis - startMillis;
    var h, rest := diff / MillisPerHour, diff % MillisPerHour;
    assert diff == h * MillisPerHour + rest;
    var m, sub := rest / MillisPerMinute, rest % MillisPerMinute;
    assert rest == m * MillisPerMinute + sub;
    assert diff == (h * 60 + m) * 60000 + sub;
  }

  /** The label `${hours}h ${minutes}m`. */
  function DurationText(d: (int, int)): (s: string)
    ensures d == (0, 0) ==> s == "0h 0m"
  {
    IntToString(d.0) + "h " + IntToString(d.1) + "m"
  }

  class ShiftPanel {
    var showStartModal: bool
    var showEndModal: bool
    var openingFloat: string
    var closingCash: string
    var closingMpesa: string

    constructor ()
      ensures !showStartModal && !showEndModal && openingFloat == "" && closingCash == "" && closingMpesa == ""
    {
      showStartModal, showEndModal := false, false;
      openingFloat, closingCash, closingMpesa := "", "", "";
    }

    /** The active panel, with End Shift, shows exactly while a shift is running. */
    predicate ShowsActive(store: DataStore)
      reads store
    {
      store.currentShift.Some?
    }

    /** `handleStartShift`: the opening float through `parseFloat`, then the field
        cleared and the form closed. */
    method HandleStartShift(store: DataStore, now: int, startTime: string, logId: int, timestamp: string)
      requires store.Valid()
      modifies this`openingFloat, this`showStartModal, store`currentShift, store`activityLogs
      ensures store.Valid() && ShowsActive(store)
      ensures store.currentShift == Some(Shift(now, startTime, ParseAmount(old(openingFloat)), Active, None))
      ensures store.activityLogs == old(store.activityLogs) +
        [LogEntry(logId, ShiftStarted(ParseAmount(old(openingFloat))), None,
                  Some(ProfileName(store.cashierProfile)), timestamp, None)]
      ensures openingFloat == "" && !showStartModal
    {
      store.StartShift(ParseAmount(openingFloat), now, startTime, logId, timestamp);
      openingFloat := "";
      showStartModal := false;
    }

    /** `handleEndShift`: both closing figures through `parseFloat`, then both fields
        cleared and the form closed. */
    method HandleEndShift(store: DataStore, endTime: string, logId: int, timestamp: string)
      requires store.Valid()
      modifies this`closingCash, this`closingMpesa, this`showEndModal, store`currentShift, store`shifts,
               store`activityLogs
      ensures store.Valid() && !ShowsActive(store)
      ensures old(store.currentShift).Some? ==>
        store.shifts == old(store.shifts) + [old(store.currentShift).value.(status := Completed,
          closing := Some(Closing(endTime, ParseAmount(old(closingCash)), ParseAmount(old(closingMpesa)))))]
      ensures old(store.currentShift).Some? ==>
        store.activityLogs == old(store.activityLogs) +
          [LogEntry(logId, ShiftEnded(ParseAmount(old(closingCash)), ParseAmount(old(closingMpesa))), None,
                    Some(ProfileName(store.cashierProfile)), timestamp, None)]
      ensures old(store.currentShift).None? ==>
        store.shifts == old(store.shifts) && store.activityLogs == old(store.activityLogs)
      ensures closingCash == "" && closingMpesa == "" && !showEndModal
    {
      store.EndShift(ParseAmount(closingCash), ParseAmount(closingMpesa), endTime, logId, timestamp);
      closingCash, closingMpesa := "", "";
      showEndModal := false;
    }
  }
}
