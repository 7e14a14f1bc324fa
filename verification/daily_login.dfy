/** The daily login calendar: a 28-day reward calendar, a streak counter
    that advances on consecutive days and restarts after a gap, and one
    claim per day. Dates are whole day numbers (`toDateString` keeps only
    the day). */
module DailyLogin {
  import opened Common
  import opened Ledger
  import opened Rewards

  const CalendarDays: int := 28

  /** One calendar cell: its day number, the reward, whether it has been
      claimed and whether it is a weekly special. */
  datatype DayReward = DayReward(day: int, reward: Reward, claimed: bool, special: bool)

  /** The cell for day `d`: every seventh day is special (boost, rate, time,
      then tokens), every other day pays `50 + 10 * d` coins. */
  function DayCell(d: int): (c: DayReward)
    ensures c.day == d && !c.claimed
    ensures c.special <==> d % 7 == 0
    ensures !c.special ==> c.reward.kind == CoinsReward && c.reward.amount == (50 + 10 * d) as real
    ensures d == 28 ==> c.reward == Reward(TokensReward, 0.5)
  {
    if d % 7 == 0 then
      var kind := if d == 7 then BoostReward else if d == 14 then RateReward
                  else if d == 21 then TimeReward else TokensReward;
      var amount := if d == 28 then 0.5 else if d == 7 then 10.0 else if d == 14 then 1.0 else 15.0;
      DayReward(d, Reward(kind, amount), false, true)
    else
      DayReward(d, Reward(CoinsReward, (50 + d * 10) as real), false, false)
  }

  /** The calendar a first visit starts from: cells numbered 1 to 28, none
      claimed, every seventh one special. A plain day `d` pays `50 + 10 * d`
      coins; the specials are a boost of 10, a rate upgrade of 1, a time
      upgrade of 15 and half a token. */
  function DefaultCalendar(): (cal: seq<DayReward>)
    ensures |cal| == CalendarDays
    ensures forall i :: 0 <= i < |cal| ==>
      && cal[i].day == i + 1 && !cal[i].claimed
      && (cal[i].special <==> (i + 1) % 7 == 0)
    ensures forall i :: 0 <= i < |cal| && !cal[i].special ==>
      cal[i].reward == Reward(CoinsReward, (50 + 10 * (i + 1)) as real)
    ensures cal[6].reward == Reward(BoostReward, 10.0)
    ensures cal[13].reward == Reward(RateReward, 1.0)
    ensures cal[20].reward == Reward(TimeReward, 15.0)
    ensures cal[27].reward == Reward(TokensReward, 0.5)
  {
    seq(CalendarDays, i => DayCell(i + 1))
  }

  /** Plain days pay more coins the later they come, and the special days
      lie whole weeks apart. */
  lemma DefaultCalendarShape()
    ensures var cal := DefaultCalendar();
      && (forall i, j :: 0 <= i < j < |cal| && !cal[i].special && !cal[j].special ==>
            cal[i].reward.amount < cal[j].reward.amount)
      && (forall i, j :: 0 <= i < j < |cal| && cal[i].special && cal[j].special ==>
            (j - i) % 7 == 0)
  {
    var cal := DefaultCalendar();
    forall i, j | 0 <= i < j < |cal| && cal[i].special && cal[j].special
      ensures (j - i) % 7 == 0
    {
      assert (i + 1) % 7 == 0 && (j + 1) % 7 == 0;
      assert (j + 1) - (i + 1) == j - i;
    }
  }

  /** The component's state, which is also what it saves: the streak day
      (0 before the first check-in), the last check-in day, the calendar and
      whether today's reward has been claimed. */
  datatype LoginState = LoginState(
    currentDay: int,
    lastLoginDate: Option<int>,
    calendar: seq<DayReward>,
    rewardClaimed: bool)

  const Fresh: LoginState := LoginState(0, None, DefaultCalendar(), false)

  /** What a well-behaved state looks like: a streak day within the calendar
      and a full calendar. */
  predicate Valid(s: LoginState) {
    0 <= s.currentDay <= CalendarDays && |s.calendar| == CalendarDays
  }

  /** The saved record if there is one, the fresh state otherwise. */
  function Load(saved: Option<LoginState>): (s: LoginState)
    ensures saved.None? ==> s == Fresh
    ensures saved.Some? ==> s == saved.value
  {
    match saved
    case Some(v) => v
    case None => Fresh
  }

  /** Every cell marked unclaimed, nothing else changed. */
  function ClearClaims(cal: seq<DayReward>): (r: seq<DayReward>)
    ensures |r| == |cal|
    ensures forall i :: 0 <= i < |cal| ==> r[i] == cal[i].(claimed := false)
  {
    seq(|cal|, i requires 0 <= i < |cal| => cal[i].(claimed := false))
  }

  /** `checkDailyLogin` on day `today`: nothing on the day already recorded;
      otherwise record today, re-open the claim and set the streak day: 1 on
      a first login, one more (at most 28) when the last login was a day
      away, and 1 with every claim cleared after a longer gap. */
  function CheckIn(s: LoginState, today: int): (r: LoginState)
    ensures s.lastLoginDate == Some(today) ==> r == s
    ensures s.lastLoginDate != Some(today) ==>
      && r.lastLoginDate == Some(today)
      && !r.rewardClaimed
      && r.currentDay <= CalendarDays
      && (s.currentDay >= 0 ==> r.currentDay >= 1)
    ensures s.lastLoginDate.None? ==> r.currentDay == 1 && r.calendar == s.calendar
    ensures s.lastLoginDate.Some? && s.lastLoginDate != Some(today) &&
            Abs(today - s.lastLoginDate.value) <= 1 ==>
      r.currentDay == Min(s.currentDay + 1, CalendarDays) && r.calendar == s.calendar
    ensures s.lastLoginDate.Some? && Abs(today - s.lastLoginDate.value) > 1 ==>
      r.currentDay == 1 && r.calendar == ClearClaims(s.calendar)
  {
    match s.lastLoginDate
    case Some(last) =>
      if last == today then s
      else if Abs(today - last) <= 1 then
        s.(lastLoginDate := Some(today), rewardClaimed := false,
           currentDay := Min(s.currentDay + 1, CalendarDays))
      else
        s.(lastLoginDate := Some(today), rewardClaimed := false,
           currentDay := 1, calendar := ClearClaims(s.calendar))
    case None =>
      s.(lastLoginDate := Some(today), rewardClaimed := false, currentDay := 1)
  }

  /** `claimReward`: refused when already claimed, before the first check-in
      or when the streak day has no cell; otherwise mark that cell claimed,
      pay its reward into the account and close the claim for the day. */
  function ClaimReward(s: LoginState, u: Account): (r: (LoginState, Account))
    ensures !Claimable(s) ==> r == (s, u)
    ensures Claimable(s) ==>
      var i := s.currentDay - 1;
      && r.1 == ApplyReward(u, s.calendar[i].reward)
      && r.0.rewardClaimed
      && r.0.currentDay == s.currentDay && r.0.lastLoginDate == s.lastLoginDate
      && |r.0.calendar| == |s.calendar|
      && r.0.calendar[i] == s.calendar[i].(claimed := true)
      && (forall j :: 0 <= j < |s.calendar| && j != i ==> r.0.calendar[j] == s.calendar[j])
  {
    if !Claimable(s) then (s, u)
    else
      var i := s.currentDay - 1;
      var cal := s.calendar[i := s.calendar[i].(claimed := true)];
      (s.(calendar := cal, rewardClaimed := true), ApplyReward(u, s.calendar[i].reward))
  }

  /** The claim button is shown and works: a streak day with a cell whose
      reward has not been taken today. */
  predicate Claimable(s: LoginState) {
    !s.rewardClaimed && s.currentDay != 0 && 1 <= s.currentDay <= |s.calendar|
  }

  /** Both operations keep a state well-behaved, and after a check-in on a
      new day the streak day is never 0, so the claim is open. */
  lemma OperationsKeepValid(s: LoginState, u: Account, today: int)
    requires Valid(s)
    ensures Valid(CheckIn(s, today)) && Valid(ClaimReward(s, u).0)
    ensures s.lastLoginDate != Some(today) ==> Claimable(CheckIn(s, today))
  {
  }

  /** One claim per day: a second claim changes nothing, and checking in
      again the same day does not re-open it. */
  lemma OneClaimPerDay(s: LoginState, u: Account, today: int)
    requires Valid(s) && s.lastLoginDate == Some(today)
    ensures var (s1, u1) := ClaimReward(s, u);
      && ClaimReward(s1, u1) == (s1, u1)
      && CheckIn(s1, today) == s1
  {
  }

  /** The cap: once the streak reaches day 28 every later consecutive day is
      day 28 again, with its claim re-opened, so the half-token reward can be
      taken daily. */
  lemma Day28Repeats(s: LoginState, u: Account, today: int)
    requires Valid(s) && s.currentDay == CalendarDays && s.lastLoginDate == Some(today - 1)
    requires s.calendar[CalendarDays - 1].reward == Reward(TokensReward, 0.5)
    ensures var n := CheckIn(s, today);
      && n.currentDay == CalendarDays && Claimable(n)
      && ClaimReward(n, u).1.tokens == u.tokens + 0.5
  {
  }

  /** Check-ins on `n` consecutive days starting at `start`. */
  function CheckInRun(s: LoginState, start: int, n: nat): LoginState
    decreases n
  {
    if n == 0 then s else CheckInRun(CheckIn(s, start), start + 1, n - 1)
  }

  /** From a first visit, `n` consecutive days of check-ins put the streak
      on day `n`, capped at 28, and the last login on the last day. */
  lemma {:induction false} StreakCounts(s: LoginState, start: int, n: nat)
    requires n >= 1 && 0 <= s.currentDay
    requires s.lastLoginDate.None? || s.lastLoginDate == Some(start - 1)
    ensures s.lastLoginDate.None? ==> CheckInRun(s, start, n).currentDay == Min(n, CalendarDays)
    ensures s.lastLoginDate.Some? ==>
      CheckInRun(s, start, n).currentDay == Min(s.currentDay + n, CalendarDays)
    ensures CheckInRun(s, start, n).lastLoginDate == Some(start + n - 1)
    decreases n
  {
    var s1 := CheckIn(s, start);
    if n > 1 {
      StreakCounts(s1, start + 1, n - 1);
    }
  }

  // ------------------------------------------------------------- on mount

  /** What mounting the component does as written: the saved record is
      loaded, then the check-in runs with the state of the first render,
      whose last login is still empty, so it always takes the first-login
      branch. The saved calendar survives; the streak day does not. */
  function MountAsWritten(saved: Option<LoginState>, today: int): (r: LoginState)
    ensures r.currentDay == 1 && r.lastLoginDate == Some(today) && !r.rewardClaimed
    ensures r.calendar == Load(saved).calendar
  {
    var loaded := Load(saved);
    var stale := Fresh;
    var checked := CheckIn(stale, today);
    loaded.(currentDay := checked.currentDay, lastLoginDate := checked.lastLoginDate,
            rewardClaimed := checked.rewardClaimed)
  }

  /** Mounting as evidently intended: the check-in runs on the loaded state.
      Today is always recorded; a reload on the day of the last check-in
      gives back the saved record, and a first visit starts day 1 on the
      default calendar with the claim open. */
  function Mount(saved: Option<LoginState>, today: int): (r: LoginState)
    ensures r.lastLoginDate == Some(today)
    ensures saved.Some? && saved.value.lastLoginDate == Some(today) ==> r == saved.value
    ensures saved.None? ==> r.currentDay == 1 && r.calendar == DefaultCalendar() && Claimable(r)
  {
    CheckIn(Load(saved), today)
  }

  /** As written, a player on day 5 who last checked in yesterday is put back
      to day 1 instead of day 6, and reloading on the day of a claim opens
      the claim again. */
  lemma MountAsWrittenLosesStreak(s: LoginState, today: int)
    requires Valid(s) && s.currentDay == 5 && s.lastLoginDate == Some(today - 1)
    ensures MountAsWritten(Some(s), today).currentDay == 1
    ensures Mount(Some(s), today).currentDay == 6
    ensures var c := s.(lastLoginDate := Some(today), rewardClaimed := true);
      && Claimable(MountAsWritten(Some(c), today))
      && !Claimable(Mount(Some(c), today))
  {
  }

  /** The corrected mount keeps the streak rules: a reload on the same day
      changes nothing, a reload the next day advances the streak by one, and
      a first visit starts at day 1 with the default calendar. */
  lemma MountKeepsStreak(s: LoginState, today: int)
    requires Valid(s) && 1 <= s.currentDay
    ensures s.lastLoginDate == Some(today) ==> Mount(Some(s), today) == s
    ensures s.lastLoginDate == Some(today - 1) ==>
      Mount(Some(s), today).currentDay == Min(s.currentDay + 1, CalendarDays)
    ensures Mount(None, today).currentDay == 1 && Mount(None, today).calendar == DefaultCalendar()
  {
  }
}
