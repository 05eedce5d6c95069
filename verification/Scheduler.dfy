/**
  Trading days and the daily schedule. An instant is a count of microseconds of Taipei time from midnight
  before some Monday; Taipei has no daylight saving time, so dates and times of day are quotients and remainders.
 */
module Scheduler {
  import opened Domain

  const HOUR: int := 3_600_000_000
  const DAY: int := 24 * HOUR
  const NIGHT_START: int := 15 * HOUR
  const NIGHT_END: int := 5 * HOUR

  datatype Settings = Settings(start: int, end: int, forceClose: int, boundary: int, night: bool)

  predicate Accepts(c: Settings) {
    0 <= c.start < c.end < DAY && c.start < c.forceClose <= c.end && NIGHT_END <= c.boundary < c.start
  }

  type Config = c: Settings | Accepts(c)
    witness Settings(9 * HOUR, 14 * HOUR, 13 * HOUR, 6 * HOUR, false)

  function DateOf(t: int): int {
    t / DAY
  }

  function TimeOf(t: int): int {
    t % DAY
  }

  predicate Weekday(date: int) {
    date % 7 < 5
  }

  function TradingDate(t: int, boundary: int): int {
    if TimeOf(t) < boundary then DateOf(t) - 1 else DateOf(t)
  }

  datatype Session = Day | Night | Closed

  function CurrentSession(c: Config, t: int): Session {
    if Weekday(DateOf(t)) && c.start <= TimeOf(t) < c.end then Day
    else if c.night && (TimeOf(t) >= NIGHT_START || TimeOf(t) < NIGHT_END) && Weekday(NightOf(t)) then Night
    else Closed
  }

  /** The date on which the night session around this instant began. */
  function NightOf(t: int): int {
    if TimeOf(t) >= NIGHT_START then DateOf(t) else DateOf(t) - 1
  }

  // ---------------------------------------------------------------- sessions

  /** Dates are counted from a Monday. */
  function Monday(week: int): int {
    7 * week
  }

  /** From Monday to Friday of some week. */
  ghost predicate IsWeekday(date: int) {
    exists week :: Monday(week) <= date <= Monday(week) + 4
  }

  lemma WeekdaysAreFiveOfSeven(date: int)
    ensures Weekday(date) <==> IsWeekday(date)
  {
    assert date == Monday(date / 7) + date % 7;
  }

  /** The time lies on this weekday's day session, or in the night from its 15:00 to 5:00 on the next day. */
  ghost predicate OnDay(c: Config, t: int, date: int) {
    IsWeekday(date) && date * DAY + c.start <= t < date * DAY + c.end
  }

  ghost predicate InNightOf(t: int, date: int) {
    IsWeekday(date) && date * DAY + 15 * HOUR <= t < date * DAY + 29 * HOUR
  }

  lemma OnlyItsDay(c: Config, t: int, date: int)
    ensures OnDay(c, t, date) <==> date == DateOf(t) && IsWeekday(date) && c.start <= TimeOf(t) < c.end
  {
    assert t == DateOf(t) * DAY + TimeOf(t);
  }

  lemma OnlyItsNight(t: int, date: int)
    ensures InNightOf(t, date)
            <==> date == NightOf(t) && IsWeekday(date) && (TimeOf(t) >= NIGHT_START || TimeOf(t) < NIGHT_END)
  {
    assert t == DateOf(t) * DAY + TimeOf(t);
  }

  /**
    The sessions are intervals of time: one by day on each weekday, and, if nights are enabled, one from 15:00 on each
    weekday to 5:00 on the next day, Friday's included; where they overlap it is day.
   */
  lemma SessionsAreIntervals(c: Config, t: int)
    ensures CurrentSession(c, t) == Day <==> exists date :: OnDay(c, t, date)
    ensures CurrentSession(c, t) == Night
            <==> c.night && (exists date :: InNightOf(t, date)) && !exists date :: OnDay(c, t, date)
  {
    WeekdaysAreFiveOfSeven(DateOf(t));
    WeekdaysAreFiveOfSeven(NightOf(t));
    forall date ensures OnDay(c, t, date) ==> date == DateOf(t) && c.start <= TimeOf(t) < c.end {
      OnlyItsDay(c, t, date);
    }
    forall date ensures InNightOf(t, date)
                        ==> date == NightOf(t) && (TimeOf(t) >= NIGHT_START || TimeOf(t) < NIGHT_END) {
      OnlyItsNight(t, date);
    }
    OnlyItsDay(c, t, DateOf(t));
    OnlyItsNight(t, NightOf(t));
  }

  // ---------------------------------------------------------------- trading dates

  /** The trading date is the calendar date of a clock set back by the boundary. */
  lemma TradingDateIsShiftedDate(t: int, boundary: int)
    requires 0 <= boundary < DAY
    ensures TradingDate(t, boundary) == (t - boundary) / DAY
  {
  }

  lemma TradingDateMonotone(t: int, u: int, boundary: int)
    requires 0 <= boundary < DAY && t <= u
    ensures TradingDate(t, boundary) <= TradingDate(u, boundary)
  {
  }

  /** Two instants of one uninterrupted session. */
  predicate SameSession(c: Config, t: int, u: int) {
    match CurrentSession(c, t)
    case Day => CurrentSession(c, u).Day? && DateOf(t) == DateOf(u)
    case Night => CurrentSession(c, u).Night? && NightOf(t) == NightOf(u)
    case Closed => false
  }

  /** The trading date never changes during a day session, nor over midnight when nights begin after the boundary. */
  lemma SessionHasOneTradingDate(c: Config, t: int, u: int)
    requires SameSession(c, t, u) && (CurrentSession(c, t).Night? ==> c.boundary <= NIGHT_START)
    ensures TradingDate(t, c.boundary) == TradingDate(u, c.boundary)
    ensures TradingDate(t, c.boundary) == if CurrentSession(c, t).Day? then DateOf(t) else NightOf(t)
  {
  }

  /** The settings allow boundaries after 15:00; exactly those split a night session between two trading dates. */
  lemma NightIsWholeExactlyWhen(c: Config)
    requires c.night
    ensures c.boundary <= NIGHT_START <==>
            forall t, u :: CurrentSession(c, t).Night? && SameSession(c, t, u) ==>
              TradingDate(t, c.boundary) == TradingDate(u, c.boundary)
  {
    if c.boundary <= NIGHT_START {
      forall t, u | CurrentSession(c, t).Night? && SameSession(c, t, u)
        ensures TradingDate(t, c.boundary) == TradingDate(u, c.boundary)
      {
        SessionHasOneTradingDate(c, t, u);
      }
    } else {
      var t, u := NIGHT_START, DAY;
      assert CurrentSession(c, t).Night? && SameSession(c, t, u);
      assert TradingDate(t, c.boundary) != TradingDate(u, c.boundary);
    }
  }

  // ---------------------------------------------------------------- polling

  datatype Memory = Memory(lastTradingDate: Option<int>, lastForceClose: Option<int>)

  datatype Answer = Answer(reset: bool, close: bool)

  /** The instants at which a day's positions have to be closed. */
  predicate InWindow(c: Config, t: int) {
    CurrentSession(c, t).Day? && TimeOf(t) >= c.forceClose
  }

  function Poll(c: Config, m: Memory, t: int): (Memory, Answer) {
    var date := TradingDate(t, c.boundary);
    var close := InWindow(c, t) && m.lastForceClose != Some(date);
    (Memory(Some(date), if close then Some(date) else m.lastForceClose),
     Answer(m.lastTradingDate.Some? && m.lastTradingDate != Some(date), close))
  }

  class Scheduler {
    const c: Config
    var lastTradingDate: Option<int>
    var lastForceCloseDate: Option<int>

    ghost function Value(): Memory
      reads this
    {
      Memory(lastTradingDate, lastForceCloseDate)
    }

    constructor (c: Config)
      ensures this.c == c && Value() == Memory(None, None)
    {
      this.c := c;
      lastTradingDate, lastForceCloseDate := None, None;
    }

    /** One poll; says which of the two callbacks it makes. */
    method Check(now: int) returns (reset: bool, close: bool)
      modifies this
      ensures (Value(), Answer(reset, close)) == Poll(c, old(Value()), now)
    {
      reset, close := false, false;
      var date := TradingDate(now, c.boundary);
      if lastTradingDate.Some? && date != lastTradingDate.value {
        reset := true;
      }
      lastTradingDate := Some(date);
      if CurrentSession(c, now).Day? && TimeOf(now) >= c.forceClose && lastForceCloseDate != Some(date) {
        lastForceCloseDate := Some(date);
        close := true;
      }
    }
  }

  // ---------------------------------------------------------------- every run of polls

  function After(c: Config, polls: seq<int>): Memory {
    if polls == [] then Memory(None, None)
    else Poll(c, After(c, polls[..|polls| - 1]), polls[|polls| - 1]).0
  }

  function AnswerAt(c: Config, polls: seq<int>, k: nat): Answer
    requires k < |polls|
  {
    Poll(c, After(c, polls[..k]), polls[k]).1
  }

  predicate Ascending(polls: seq<int>) {
    forall i, j :: 0 <= i <= j < |polls| ==> polls[i] <= polls[j]
  }

  /** The daily reset fires at exactly the polls that see a new trading date. */
  lemma ResetMarksDateChange(c: Config, polls: seq<int>, k: nat)
    requires k < |polls|
    ensures AnswerAt(c, polls, k).reset
            <==> k > 0 && TradingDate(polls[k - 1], c.boundary) != TradingDate(polls[k], c.boundary)
  {
  }

  /** No reset fires between two polls of one session. */
  lemma NoResetInsideSession(c: Config, polls: seq<int>, j: nat, i: nat, k: nat)
    requires Ascending(polls) && j < i <= k < |polls|
    requires SameSession(c, polls[j], polls[k]) && (CurrentSession(c, polls[j]).Night? ==> c.boundary <= NIGHT_START)
    ensures !AnswerAt(c, polls, i).reset
  {
    SessionHasOneTradingDate(c, polls[j], polls[k]);
    TradingDateMonotone(polls[j], polls[i - 1], c.boundary);
    TradingDateMonotone(polls[i - 1], polls[i], c.boundary);
    TradingDateMonotone(polls[i], polls[k], c.boundary);
    ResetMarksDateChange(c, polls, i);
  }

  predicate SeenInWindow(c: Config, polls: seq<int>, date: int) {
    exists j :: 0 <= j < |polls| && InWindow(c, polls[j]) && TradingDate(polls[j], c.boundary) == date
  }

  /** The scheduler remembers the date of the last poll inside a window. */
  lemma {:induction false} RemembersLastWindow(c: Config, polls: seq<int>)
    ensures var m := After(c, polls);
            && (m.lastForceClose.Some? ==> SeenInWindow(c, polls, m.lastForceClose.value))
            && (Ascending(polls) ==>
                  forall d :: SeenInWindow(c, polls, d) ==> m.lastForceClose.Some? && d <= m.lastForceClose.value)
  {
    if polls != [] {
      var n := |polls| - 1;
      var before, m := polls[..n], After(c, polls[..n]);
      RemembersLastWindow(c, before);
      if m.lastForceClose.Some? {
        var j :| 0 <= j < n && InWindow(c, before[j]) && TradingDate(before[j], c.boundary) == m.lastForceClose.value;
        assert InWindow(c, polls[j]);
        if polls[j] <= polls[n] { TradingDateMonotone(polls[j], polls[n], c.boundary); }
      }
      forall d | Ascending(polls) && SeenInWindow(c, polls, d)
        ensures After(c, polls).lastForceClose.Some? && d <= After(c, polls).lastForceClose.value
      {
        var j :| 0 <= j <= n && InWindow(c, polls[j]) && TradingDate(polls[j], c.boundary) == d;
        if j < n { assert before[j] == polls[j] && SeenInWindow(c, before, d); }
      }
      assert polls[n] == polls[|polls| - 1];
    }
  }

  /** The forced close fires exactly at the first poll inside the window of each trading date. */
  lemma ForceCloseAtFirstPoll(c: Config, polls: seq<int>, k: nat)
    requires Ascending(polls) && k < |polls|
    ensures AnswerAt(c, polls, k).close
            <==> InWindow(c, polls[k]) && !SeenInWindow(c, polls[..k], TradingDate(polls[k], c.boundary))
  {
    var m, date := After(c, polls[..k]), TradingDate(polls[k], c.boundary);
    RemembersLastWindow(c, polls[..k]);
    if InWindow(c, polls[k]) && SeenInWindow(c, polls[..k], date) {
      var last := m.lastForceClose.value;
      var j :| 0 <= j < k && InWindow(c, polls[..k][j]) && TradingDate(polls[..k][j], c.boundary) == last;
      TradingDateMonotone(polls[j], polls[k], c.boundary);
    }
  }

  /** Exactly one forced close for every trading date that was polled inside its window, and none for any other. */
  lemma ForceCloseOncePerDate(c: Config, polls: seq<int>, date: int)
    requires Ascending(polls)
    ensures SeenInWindow(c, polls, date) <==>
            exists k :: 0 <= k < |polls| && AnswerAt(c, polls, k).close && TradingDate(polls[k], c.boundary) == date
    ensures forall i, k :: 0 <= i < k < |polls| && AnswerAt(c, polls, i).close && AnswerAt(c, polls, k).close ==>
              TradingDate(polls[i], c.boundary) != TradingDate(polls[k], c.boundary)
    ensures SeenInWindow(c, polls, date) ==> Weekday(date)
  {
    forall k | 0 <= k < |polls|
      ensures AnswerAt(c, polls, k).close
              <==> InWindow(c, polls[k]) && !SeenInWindow(c, polls[..k], TradingDate(polls[k], c.boundary))
    {
      ForceCloseAtFirstPoll(c, polls, k);
    }
    if SeenInWindow(c, polls, date) {
      var k := FirstInWindow(c, polls, date);
      assert AnswerAt(c, polls, k).close;
    }
    forall i, k | 0 <= i < k < |polls| && AnswerAt(c, polls, i).close && AnswerAt(c, polls, k).close
      ensures TradingDate(polls[i], c.boundary) != TradingDate(polls[k], c.boundary)
    {
      assert polls[..k][i] == polls[i];
    }
  }

  lemma {:induction false} FirstInWindow(c: Config, polls: seq<int>, date: int) returns (k: nat)
    requires SeenInWindow(c, polls, date)
    ensures k < |polls| && InWindow(c, polls[k]) && TradingDate(polls[k], c.boundary) == date
    ensures !SeenInWindow(c, polls[..k], date)
  {
    var j :| 0 <= j < |polls| && InWindow(c, polls[j]) && TradingDate(polls[j], c.boundary) == date;
    if SeenInWindow(c, polls[..j], date) {
      k := FirstInWindow(c, polls[..j], date);
      assert polls[..j][k] == polls[k] && polls[..j][..k] == polls[..k];
    } else {
      k := j;
    }
  }

  /**
    The settings allow the forced close at the very end of the session, and then no instant lies in the
    window: it can fire at all exactly when it is set before the session ends.
   */
  lemma WindowExistsExactlyWhen(c: Config)
    ensures c.forceClose < c.end <==> exists t :: InWindow(c, t)
  {
    if c.forceClose < c.end {
      assert InWindow(c, c.forceClose);
    }
  }

  /** Every session on a weekday begins outside the window: the settings always leave time to trade. */
  lemma SessionOpensBeforeWindow(c: Config, date: int)
    requires IsWeekday(date)
    ensures CurrentSession(c, date * DAY + c.start) == Day && !InWindow(c, date * DAY + c.start)
  {
    WeekdaysAreFiveOfSeven(date);
  }
}
