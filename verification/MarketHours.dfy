/**
 The trading calendar over wall-clock instants: a date ordinal (ordinal 1 is a Monday) and a time
 of day in microseconds. Dates are unbounded in both directions.
 */
module MarketHours {
  type TimeOfDay = t: nat | t < 86_400_000_000 witness 0

  datatype Instant = Instant(date: int, time: TimeOfDay)

  predicate Before(a: Instant, b: Instant) {
    a.date < b.date || (a.date == b.date && a.time < b.time)
  }

  /** Monday is 0. */
  function Weekday(date: int): nat {
    (date + 6) % 7
  }

  predicate IsTradingDay(date: int) {
    Weekday(date) < 5
  }

  datatype Status = OPEN | CLOSED | PRE_OPEN | LUNCH_BREAK | WEEKEND

  datatype Session = Session(start: TimeOfDay, end: TimeOfDay) {
    predicate Contains(t: TimeOfDay) {
      start <= t <= end
    }
  }

  datatype Config = Config(
    preOpen: Session, regular: Session, lunch: Session,
    enforceLunch: bool, enforceWeekends: bool, always: bool)
  {
    /** The status by time of day, before weekends are considered. */
    function SessionStatus(t: TimeOfDay): Status {
      if preOpen.Contains(t) then PRE_OPEN
      else if regular.Contains(t) then
        if enforceLunch && lunch.Contains(t) then LUNCH_BREAK else OPEN
      else CLOSED
    }

    function GetMarketStatus(now: Instant): Status {
      if always then OPEN
      else if enforceWeekends && Weekday(now.date) >= 5 then WEEKEND
      else SessionStatus(now.time)
    }

    predicate IsMarketOpen(now: Instant) {
      GetMarketStatus(now) in {OPEN, PRE_OPEN}
    }

    /** The earliest opening bell of a trading day strictly after `from`: what the search promises. */
    ghost predicate IsNextBell(from: Instant, bell: Instant) {
      && bell.time == regular.start && IsTradingDay(bell.date) && Before(from, bell)
      && forall d :: IsTradingDay(d) && Before(from, Instant(d, regular.start)) ==> bell.date <= d
    }

    /** The search for the next open. Its loop counts days ahead and skips weekends; `target` is the
        date it is bound to stop at. */
    method NextMarketOpen(from: Instant) returns (bell: Instant)
      ensures IsNextBell(from, bell)
    {
      if from.time < regular.start && Weekday(from.date) < 5 {
        return Instant(from.date, regular.start);
      }
      var daysAhead := 1;
      if Weekday(from.date) >= 4 {
        daysAhead := 7 - Weekday(from.date);
      }
      var next := from.date;
      ghost var target := from.date + daysAhead;
      while Weekday(next) >= 5 || daysAhead > 0
        invariant next + daysAhead == target && from.date <= next <= target && IsTradingDay(target)
        invariant forall d :: from.date < d < target ==> !IsTradingDay(d)
        decreases target - next
      {
        next := next + 1;
        daysAhead := daysAhead - 1;
      }
      bell := Instant(next, regular.start);
    }
  }

  lemma NextBellUnique(c: Config, from: Instant, a: Instant, b: Instant)
    requires c.IsNextBell(from, a) && c.IsNextBell(from, b)
    ensures a == b
  {
  }

  /** The status of every instant, session by session: weekends first (ordinals 6 and 7 are the first one),
      then the pre-open session, then the regular one without the lunch break, if that is enforced. */
  lemma StatusIs(c: Config, now: Instant)
    ensures var t, weekend := now.time, now.date % 7 == 6 || now.date % 7 == 0;
      var early := c.preOpen.start <= t && t <= c.preOpen.end;
      var trading := c.regular.start <= t && t <= c.regular.end;
      var lunch := c.enforceLunch && c.lunch.start <= t && t <= c.lunch.end;
      var status := c.GetMarketStatus(now);
      && (c.always ==> status == OPEN)
      && (!c.always ==>
            && (status == WEEKEND <==> c.enforceWeekends && weekend)
            && (status == PRE_OPEN <==> !(c.enforceWeekends && weekend) && early)
            && (status == LUNCH_BREAK <==> !(c.enforceWeekends && weekend) && !early && trading && lunch)
            && (status == OPEN <==> !(c.enforceWeekends && weekend) && !early && trading && !lunch))
  {
  }

  /** A default day without an enforced lunch break: pre-open from 9:00, open after 9:15, closed after 15:30. */
  lemma DefaultDay(date: int, t: TimeOfDay)
    requires IsTradingDay(date)
    ensures DefaultHours(false, true).GetMarketStatus(Instant(date, t)) ==
            if t < Clock(9, 0) then CLOSED
            else if t <= Clock(9, 15) then PRE_OPEN
            else if t <= Clock(15, 30) then OPEN
            else CLOSED
  {
  }

  lemma NextWeekday(date: int)
    ensures Weekday(date + 1) == if Weekday(date) == 6 then 0 else Weekday(date) + 1
  {
  }

  /** The next bell rings within three days, so the search is short as well as finite. */
  lemma NextBellWithinThreeDays(c: Config, from: Instant, bell: Instant)
    requires c.IsNextBell(from, bell)
    ensures bell.date <= from.date + 3
  {
    NextWeekday(from.date);
    NextWeekday(from.date + 1);
    NextWeekday(from.date + 2);
    var d := if IsTradingDay(from.date + 1) then from.date + 1
             else if IsTradingDay(from.date + 2) then from.date + 2
             else from.date + 3;
    assert IsTradingDay(d) && Before(from, Instant(d, c.regular.start));
  }

  /** The bell itself is an open instant exactly when the regular session has a start that is either
      a pre-open minute or a session minute outside an enforced lunch break. */
  lemma BellIsOpen(c: Config, from: Instant, bell: Instant)
    requires c.IsNextBell(from, bell)
    ensures c.IsMarketOpen(bell) <==>
      || c.always
      || c.preOpen.Contains(c.regular.start)
      || (c.regular.start <= c.regular.end && !(c.enforceLunch && c.lunch.Contains(c.regular.start)))
  {
  }

  /** Some instant strictly between two others is OPEN. */
  ghost predicate OpensBetween(c: Config, from: Instant, bell: Instant) {
    exists between :: Before(from, between) && Before(between, bell) && c.GetMarketStatus(between) == OPEN
  }

  /** The market is OPEN at some later time of the same day. */
  ghost predicate OpensLater(c: Config, t: TimeOfDay) {
    exists later: TimeOfDay :: t < later && c.SessionStatus(later) == OPEN
  }

  /** On which instants the search passes over trading, whatever their own status: those from which the
      market still opens on a day whose bell has rung or which has none, and, when weekends trade,
      those with a whole weekend day ahead of the bell. */
  ghost predicate Overlooks(c: Config, from: Instant) {
    var rung := if IsTradingDay(from.date) then c.regular.start <= from.time else !c.enforceWeekends;
    || (rung && OpensLater(c, from.time))
    || (!c.enforceWeekends && (Weekday(from.date) == 5 || (Weekday(from.date) == 4 && c.regular.start <= from.time))
        && exists t: TimeOfDay :: c.SessionStatus(t) == OPEN)
  }

  /** Where the bell of an instant is. */
  lemma BellDate(c: Config, from: Instant, bell: Instant)
    requires c.IsNextBell(from, bell)
    ensures bell.date == from.date <==> IsTradingDay(from.date) && from.time < c.regular.start
    ensures bell.date > from.date + 1 <==>
            Weekday(from.date) == 5 || (Weekday(from.date) == 4 && c.regular.start <= from.time)
    ensures from.date <= bell.date && forall d :: from.date < d < bell.date ==> !IsTradingDay(d)
  {
    NextWeekday(from.date);
    var today, tomorrow := Instant(from.date, c.regular.start), Instant(from.date + 1, c.regular.start);
    assert IsTradingDay(today.date) && Before(from, today) ==> bell.date <= today.date;
    assert IsTradingDay(tomorrow.date) && Before(from, tomorrow) ==> bell.date <= tomorrow.date;
    forall d | from.date < d < bell.date ensures !IsTradingDay(d) {
      assert Before(from, Instant(d, c.regular.start));
    }
  }

  /** Exactly when trading is passed over between an instant, of whatever status, and its next bell. */
  lemma OverlooksIff(c: Config, from: Instant, bell: Instant)
    requires !c.always && c.IsNextBell(from, bell)
    ensures OpensBetween(c, from, bell) <==> Overlooks(c, from)
  {
    BellDate(c, from, bell);
    if OpensBetween(c, from, bell) {
      var between :| Before(from, between) && Before(between, bell) && c.GetMarketStatus(between) == OPEN;
      var t: TimeOfDay := between.time;
      assert c.SessionStatus(t) == OPEN && c.regular.start <= t;
      assert between.date < bell.date;
      if between.date == from.date {
        assert from.time < t;
      } else {
        assert from.date < between.date && !IsTradingDay(between.date);
      }
    }
    if Overlooks(c, from) {
      if later: TimeOfDay :| from.time < later && c.SessionStatus(later) == OPEN && bell.date > from.date
                             && (c.enforceWeekends ==> IsTradingDay(from.date)) {
        var between := Instant(from.date, later);
        assert Before(from, between) && Before(between, bell) && c.GetMarketStatus(between) == OPEN;
      } else {
        var t: TimeOfDay :| c.SessionStatus(t) == OPEN;
        var between := Instant(from.date + 1, t);
        assert Before(from, between) && Before(between, bell) && c.GetMarketStatus(between) == OPEN;
      }
    }
  }

  /** No session is missed: nothing strictly between a closed instant and its next bell is OPEN. */
  lemma NoMissedSession(c: Config, from: Instant, bell: Instant)
    requires c.enforceWeekends && !c.always && c.GetMarketStatus(from) in {CLOSED, WEEKEND} && c.IsNextBell(from, bell)
    ensures !OpensBetween(c, from, bell)
  {
    OverlooksIff(c, from, bell);
  }

  ghost predicate MissesNothing(c: Config) {
    forall from, bell, between | c.IsNextBell(from, bell) && Before(from, between) && Before(between, bell) ::
      c.GetMarketStatus(from) in {CLOSED, WEEKEND} ==> c.GetMarketStatus(between) != OPEN
  }

  /** Exactly which calendars keep that promise. The search always skips weekends, so a calendar
      that trades on them must not have both a closed and an open time of day. */
  lemma MissesNothingIff(c: Config)
    ensures MissesNothing(c) <==>
      || c.always || c.enforceWeekends
      || (forall t: TimeOfDay :: c.SessionStatus(t) != CLOSED)
      || (forall t: TimeOfDay :: c.SessionStatus(t) != OPEN)
  {
    if c.always || c.enforceWeekends {
      forall from, bell, between |
        c.GetMarketStatus(from) in {CLOSED, WEEKEND} && c.IsNextBell(from, bell)
        && Before(from, between) && Before(between, bell)
        ensures c.GetMarketStatus(between) != OPEN
      {
        NoMissedSession(c, from, bell);
      }
    } else if closed, open: TimeOfDay :| c.SessionStatus(closed) == CLOSED && c.SessionStatus(open) == OPEN {
      // Saturday at a closed hour; Sunday trades at the open hour; the bell rings on Monday.
      var from, between, bell := Instant(6, closed), Instant(7, open), Instant(8, c.regular.start);
      assert !IsTradingDay(6) && !IsTradingDay(7) && IsTradingDay(8);
      assert c.IsNextBell(from, bell) && Before(from, between) && Before(between, bell);
      assert c.GetMarketStatus(from) == CLOSED && c.GetMarketStatus(between) == OPEN;
      assert !MissesNothing(c);
    }
  }

  /** The same promise for every instant at which the market is not OPEN, lunch break and pre-open included. */
  ghost predicate MissesNothingWhileShut(c: Config) {
    forall from, bell | c.IsNextBell(from, bell) :: c.GetMarketStatus(from) != OPEN ==> !OpensBetween(c, from, bell)
  }

  /** Exactly which calendars keep it: those in which, from the bell on, the market does not open again
      once it is not OPEN; and if weekends trade, those with only one kind of time of day. */
  lemma MissesNothingWhileShutIff(c: Config)
    ensures MissesNothingWhileShut(c) <==>
      || c.always
      || (c.enforceWeekends && forall t: TimeOfDay :: c.regular.start <= t && c.SessionStatus(t) != OPEN ==>
          !OpensLater(c, t))
      || (!c.enforceWeekends && ((forall t: TimeOfDay :: c.SessionStatus(t) != OPEN) ||
                                 (forall t: TimeOfDay :: c.SessionStatus(t) == OPEN)))
  {
    if c.always {
      return;
    }
    if c.enforceWeekends {
      forall t: TimeOfDay | MissesNothingWhileShut(c) && c.regular.start <= t && c.SessionStatus(t) != OPEN
        ensures !OpensLater(c, t)
      {
        var from, bell := Instant(1, t), Instant(2, c.regular.start);
        assert IsTradingDay(1) && IsTradingDay(2) && c.IsNextBell(from, bell);
        OverlooksIff(c, from, bell);
      }
    } else if shut, open: TimeOfDay :| c.SessionStatus(shut) != OPEN && c.SessionStatus(open) == OPEN {
      // Saturday at the shut hour; Sunday trades at the open hour; the bell rings on Monday.
      var from, bell := Instant(6, shut), Instant(8, c.regular.start);
      assert !IsTradingDay(6) && !IsTradingDay(7) && IsTradingDay(8) && c.IsNextBell(from, bell);
      OverlooksIff(c, from, bell);
      assert !MissesNothingWhileShut(c);
    }
    forall from, bell | c.IsNextBell(from, bell)
      ensures OpensBetween(c, from, bell) <==> Overlooks(c, from)
    {
      OverlooksIff(c, from, bell);
    }
  }

  /** What that means on a weekday of a calendar with enforced weekends: before the bell nothing is
      passed over; from the bell on, at the bell itself with its PRE_OPEN status and in a lunch break,
      trading is passed over exactly as long as the market opens again on the same day. */
  lemma BellSkipsOwnSession(c: Config, from: Instant, bell: Instant)
    requires !c.always && c.enforceWeekends && IsTradingDay(from.date) && c.IsNextBell(from, bell)
    ensures OpensBetween(c, from, bell) <==> c.regular.start <= from.time && OpensLater(c, from.time)
    ensures c.regular.start <= from.time ==> bell.date > from.date
  {
    OverlooksIff(c, from, bell);
    BellDate(c, from, bell);
  }

  /** The default hours, with the lunch break enforced or not: at the bell, and at one in the break, the
      next open is another day's although the market opens again within the hour. */
  lemma DefaultHoursSkip(enforceLunch: bool, enforceWeekends: bool, date: int, bell: Instant)
    requires var c := DefaultHours(enforceLunch, enforceWeekends);
      IsTradingDay(date) && (c.IsNextBell(Instant(date, Clock(9, 15)), bell) ||
                             c.IsNextBell(Instant(date, Clock(13, 0)), bell))
    ensures var c := DefaultHours(enforceLunch, enforceWeekends);
      && bell.date > date && OpensLater(c, Clock(13, 0))
      && c.SessionStatus(Clock(9, 15)) == PRE_OPEN
      && c.SessionStatus(Clock(13, 0)) == (if enforceLunch then LUNCH_BREAK else OPEN)
  {
    assert DefaultHours(enforceLunch, enforceWeekends).SessionStatus(Clock(14, 0)) == OPEN;
  }

  function Clock(hour: nat, minute: nat): TimeOfDay
    requires hour < 24 && minute < 60
  {
    (hour * 60 + minute) * 60_000_000
  }

  function DefaultHours(enforceLunch: bool, enforceWeekends: bool): Config {
    Config(Session(Clock(9, 0), Clock(9, 15)), Session(Clock(9, 15), Clock(15, 30)),
           Session(Clock(12, 30), Clock(13, 30)),
           enforceLunch, enforceWeekends, false)
  }
}
