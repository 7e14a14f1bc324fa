/** The mining session hook: effective rate and boost from the level table and
    the upgrade levels, the payout formula, and the session state machine
    (start, one-second ticks, completion, restore after a reload, claim).

    The hook fixes the session length at 120. The earnings formula reads it
    as minutes (a two-hour session); the countdown and the end time read it
    as seconds. Earnings are computed from the ledger as it is when the
    session completes, not as it was at the start, and no VIP bonus enters. */
module Mining {
  import opened Common
  import opened Progression
  import opened Ledger

  /** The persisted session record. `startTime` and `endTime` are instants
      in milliseconds; `progress` is a percentage. */
  datatype MiningState = MiningState(
    active: bool,
    progress: real,
    timeLeft: int,
    earnings: int,
    startTime: Option<int>,
    endTime: Option<int>)

  /** No session: what the hook starts with and what a claim leaves. */
  const Idle: MiningState := MiningState(false, 0.0, 0, 0, None, None)

  const SessionLength: int := 120

  /** The level table has a row for the account's level; the hook fails on
      any other level. */
  predicate Priced(u: Account) {
    IsLevel(u.level)
  }

  /** Coins per hour: the level's base rate plus one per rate upgrade. */
  function Rate(u: Account): real
    requires Priced(u)
  {
    Config(u.level).baseRate + u.rateUpgradeLevel as real
  }

  /** Boost percentage: the level's boost plus five per boost upgrade. */
  function Boost(u: Account): int
    requires Priced(u)
  {
    Config(u.level).boost + 5 * u.boostUpgradeLevel
  }

  /** Rate times hours times the boost multiplier, with the duration in
      minutes. Shared with the statistics panel. */
  function Earnings(rate: real, minutes: int, boost: int): real {
    rate * (minutes as real / 60.0) * (1.0 + boost as real / 100.0)
  }

  /** The rate is per hour: an hour without boost earns exactly the rate,
      and no input of the right signs earns a negative amount. */
  lemma EarningsPerHour(rate: real, minutes: int, boost: int)
    ensures minutes == 60 && boost == 0 ==> Earnings(rate, minutes, boost) == rate
    ensures rate >= 0.0 && minutes >= 0 && boost >= -100 ==> Earnings(rate, minutes, boost) >= 0.0
  {
    if rate >= 0.0 && minutes >= 0 && boost >= -100 {
      var h, f := minutes as real / 60.0, 1.0 + boost as real / 100.0;
      assert h >= 0.0 && f >= 0.0;
      assert rate * h >= 0.0;
      assert rate * h * f >= 0.0;
    }
  }

  /** `calculatePotentialEarnings`. */
  function Potential(u: Account): real
    requires Priced(u)
  {
    Earnings(Rate(u), SessionLength, Boost(u))
  }

  /** What a finished session pays: the potential rounded down. */
  function Payout(u: Account): (n: int)
    requires Priced(u)
    ensures n as real <= Potential(u) < n as real + 1.0
  {
    Potential(u).Floor
  }

  /** Only the level and the rate and boost upgrade levels decide the
      payout: time upgrades, VIP tier, balances and name play no part. */
  lemma PayoutInputs(u: Account, v: Account)
    requires Priced(u) && u.level == v.level
    requires u.rateUpgradeLevel == v.rateUpgradeLevel && u.boostUpgradeLevel == v.boostUpgradeLevel
    ensures Priced(v) && Potential(u) == Potential(v) && Payout(u) == Payout(v)
  {
  }

  /** With no negative upgrade levels a session pays at least two coins,
      and the payout is the whole part of the potential. */
  lemma PayoutBounds(u: Account)
    requires Priced(u) && u.rateUpgradeLevel >= 0 && u.boostUpgradeLevel >= 0
    ensures Payout(u) as real <= Potential(u) < Payout(u) as real + 1.0
    ensures Potential(u) >= 2.0 && Payout(u) >= 2
  {
    LevelFloor(u.level);
    var rate, m := Rate(u), Multiplier(u);
    assert rate >= 1.0 && m >= 1.0;
    PotentialForm(u);
    assert rate * m >= 1.0 by {
      assert rate * m >= 1.0 * m;
    }
  }

  /** Buying a rate or boost upgrade never lowers the payout. */
  lemma PayoutMonotone(u: Account, v: Account)
    requires Priced(u) && u.level == v.level
    requires 0 <= u.rateUpgradeLevel <= v.rateUpgradeLevel
    requires 0 <= u.boostUpgradeLevel <= v.boostUpgradeLevel
    ensures Priced(v) && Potential(u) <= Potential(v) && Payout(u) <= Payout(v)
  {
    LevelFloor(u.level);
    var ru, rv, mu, mv := Rate(u), Rate(v), Multiplier(u), Multiplier(v);
    assert 1.0 <= mu <= mv;
    assert 1.0 <= ru <= rv;
    PotentialForm(u);
    PotentialForm(v);
    ScaledProductMonotone(ru, rv, mu, mv);
    FloorMonotone(Potential(u), Potential(v));
  }

  /** The boost as a factor. */
  function Multiplier(u: Account): real
    requires Priced(u)
  {
    1.0 + Boost(u) as real / 100.0
  }

  /** A session's two minutes make the potential twice rate times boost
      factor. */
  lemma PotentialForm(u: Account)
    requires Priced(u)
    ensures Potential(u) == Rate(u) * 2.0 * Multiplier(u)
  {
  }

  /** Every level's base rate is at least 1 and its boost is not negative. */
  lemma LevelFloor(l: int)
    requires IsLevel(l)
    ensures Config(l).baseRate >= 1.0 && Config(l).boost >= 0
  {
    LevelEconomics();
  }

  lemma ScaledProductMonotone(a: real, b: real, m: real, n: real)
    requires 0.0 <= a <= b && 0.0 <= m <= n
    ensures a * 2.0 * m <= b * 2.0 * n
  {
    assert a * m <= b * m;
    assert b * m <= b * n;
    assert a * 2.0 * m == 2.0 * (a * m);
    assert b * 2.0 * n == 2.0 * (b * n);
  }

  lemma FloorMonotone(a: real, b: real)
    requires a <= b
    ensures a.Floor <= b.Floor
  {
  }

  // ------------------------------------------------------ state machine

  /** `startMining`: a fresh active session ending `SessionLength` seconds
      from `now`, whatever the previous state was. */
  function StartMining(now: int): (s: MiningState)
    ensures s.active && s.progress == 0.0 && s.earnings == 0
    ensures s.timeLeft == SessionLength
    ensures s.startTime == Some(now)
    ensures s.endTime == Some(now + SessionLength * 1000)
    ensures s.endTime.value - s.startTime.value == s.timeLeft * 1000
  {
    MiningState(true, 0.0, SessionLength, 0, Some(now), Some(now + SessionLength * 1000))
  }

  /** The progress shown when `left` seconds remain. */
  function ProgressAt(left: int): real {
    100.0 - (left as real / SessionLength as real) * 100.0
  }

  /** One step of the timer effect, with `u` the ledger at that moment.
      An active session with time left counts down one second; an active
      session with no time left completes and is paid from `u`; any other
      state is left alone. */
  function Tick(s: MiningState, u: Account): (r: MiningState)
    requires Priced(u)
    ensures s.active && s.timeLeft > 0 ==>
      r == s.(timeLeft := s.timeLeft - 1, progress := ProgressAt(s.timeLeft - 1))
    ensures s.active && s.timeLeft <= 0 ==>
      !r.active && r.earnings == Payout(u) && r.timeLeft == s.timeLeft && r.progress == s.progress
    ensures !s.active ==> r == s
    ensures r.startTime == s.startTime && r.endTime == s.endTime
  {
    if s.active && s.timeLeft > 0 then
      var left := s.timeLeft - 1;
      s.(timeLeft := left, progress := ProgressAt(left))
    else if s.active && s.timeLeft <= 0 then
      s.(active := false, earnings := Payout(u))
    else s
  }

  /** `n` ticks against an unchanging ledger. */
  function Ticks(s: MiningState, u: Account, n: nat): MiningState
    requires Priced(u)
  {
    if n == 0 then s else Tick(Ticks(s, u, n - 1), u)
  }

  /** A session counts down one second per tick: after `k` ticks it has
      `SessionLength - k` seconds left and shows the matching progress. */
  lemma {:induction false} Countdown(now: int, u: Account, k: nat)
    requires Priced(u) && k <= SessionLength
    ensures Ticks(StartMining(now), u, k)
         == StartMining(now).(timeLeft := SessionLength - k, progress := ProgressAt(SessionLength - k))
  {
    if k > 0 {
      Countdown(now, u, k - 1);
    }
  }

  /** One tick after the countdown reaches zero the session is over: it is
      inactive, at full progress, and holds the payout of the ledger. */
  lemma SessionCompletes(now: int, u: Account)
    requires Priced(u)
    ensures Ticks(StartMining(now), u, SessionLength + 1)
         == StartMining(now).(active := false, timeLeft := 0, progress := 100.0, earnings := Payout(u))
  {
    Countdown(now, u, SessionLength);
  }

  /** The payout is read from the ledger at completion: buying a rate
      upgrade during a level-1 session doubles what it pays. */
  lemma PayoutReadAtCompletion(u: Account)
    requires u.level == 1 && u.rateUpgradeLevel == 0 && u.boostUpgradeLevel == 0
    ensures Payout(u) == 2
    ensures Payout(u.(rateUpgradeLevel := 1)) == 4
  {
  }

  // ------------------------------------------------------ restore

  /** `Math.round(ms / 1000)`: halves round up. */
  function RoundSeconds(ms: int): (r: int)
    ensures r * 1000 - 500 <= ms < r * 1000 + 500
  {
    (ms + 500) / 1000
  }

  /** The part of `[start, end)` that has passed at `now`, in percent. */
  function ElapsedShare(start: int, now: int, end: int): (pct: real)
    requires start != end
    ensures pct * (end - start) as real == (now - start) as real * 100.0
    ensures start <= now < end ==> 0.0 <= pct < 100.0
  {
    var share := (now - start) as real / (end - start) as real;
    ShareBounds((now - start) as real, (end - start) as real);
    share * 100.0
  }

  lemma ShareBounds(a: real, b: real)
    requires b != 0.0
    ensures (a / b) * b == a
    ensures 0.0 <= a < b ==> 0.0 <= a / b < 1.0
  {
  }

  /** The stored session is active with a usable end time (`endTime` is
      neither null nor zero). */
  predicate Running(s: MiningState) {
    s.active && s.endTime.Some? && s.endTime.value != 0
  }

  /** A missing start time counts as 0 in the hook's arithmetic. */
  function StartOf(s: MiningState): int {
    s.startTime.GetOr(0)
  }

  /** Restoring a stored session at `now`, paying from the ledger `u`. A
      running session still before its end gets its remaining seconds
      rounded and its progress as the elapsed share of its length, and keeps
      everything else; one past its end completes, paid from `u`; anything
      else is taken as it was stored. Which ledger the hook hands in is
      what `RestoreAsWritten` and `RestoreAgreesWithTicks` settle. */
  function Restore(saved: MiningState, u: Account, now: int): (r: MiningState)
    requires Priced(u)
    requires Running(saved) && now < saved.endTime.value ==> StartOf(saved) != saved.endTime.value
    ensures !Running(saved) ==> r == saved
    ensures Running(saved) && now < saved.endTime.value ==>
      && r == saved.(timeLeft := r.timeLeft, progress := r.progress)
      && r.timeLeft >= 0
      && r.timeLeft * 1000 - 500 <= saved.endTime.value - now < r.timeLeft * 1000 + 500
      && r.progress * (saved.endTime.value - StartOf(saved)) as real == (now - StartOf(saved)) as real * 100.0
      && (StartOf(saved) <= now ==> 0.0 <= r.progress < 100.0)
    ensures Running(saved) && now >= saved.endTime.value ==>
      r == saved.(active := false, timeLeft := 0, progress := 100.0, earnings := Payout(u))
  {
    if Running(saved) then
      var end := saved.endTime.value;
      if now < end then
        saved.(timeLeft := RoundSeconds(end - now), progress := ElapsedShare(StartOf(saved), now, end))
      else
        saved.(active := false, timeLeft := 0, progress := 100.0, earnings := Payout(u))
    else saved
  }

  /** Restoring from timestamps, paid from the ledger the countdown would
      have used, agrees with ticking: a session reloaded `k` whole seconds
      after it started shows what `k` ticks would have shown, and one
      reloaded at or after its end shows what the completing tick would have
      left. */
  lemma RestoreAgreesWithTicks(now: int, u: Account, k: nat)
    requires Priced(u) && now >= 0
    ensures k < SessionLength ==>
      Restore(StartMining(now), u, now + 1000 * k) == Ticks(StartMining(now), u, k)
    ensures k >= SessionLength ==>
      Restore(StartMining(now), u, now + 1000 * k) == Ticks(StartMining(now), u, SessionLength + 1)
  {
    Countdown(now, u, if k < SessionLength then k else SessionLength);
    SessionCompletes(now, u);
    var s := StartMining(now);
    var t := now + 1000 * k;
    if k < SessionLength {
      var end := now + SessionLength * 1000;
      assert end - t == 1000 * (SessionLength - k);
      assert RoundSeconds(end - t) == SessionLength - k;
      assert (t - now) as real == 1000.0 * k as real;
      assert (end - now) as real == 120000.0;
      assert ((t - now) as real / (end - now) as real) * 100.0 == ProgressAt(SessionLength - k);
    } else {
      assert t >= s.endTime.value;
    }
  }

  /** The restore as written. The effect runs once, on mount, and its
      closure holds the ledger of the first render, before the stored
      ledger has been read back: the user-data provider's starting record.
      A session found completed is paid from that record. */
  function RestoreAsWritten(saved: MiningState, now: int): (r: MiningState)
    requires Running(saved) && now < saved.endTime.value ==> StartOf(saved) != saved.endTime.value
    ensures Running(saved) && now >= saved.endTime.value ==>
      r == saved.(active := false, timeLeft := 0, progress := 100.0, earnings := 2)
    ensures !(Running(saved) && now >= saved.endTime.value) ==> r == Restore(saved, LocalInitial, now)
  {
    CompletedPaysUnupgraded(saved, now, LocalInitial);
    Restore(saved, LocalInitial, now)
  }

  /** A session found completed on restore pays whatever the ledger handed
      in pays; a level-1 ledger with no upgrades pays 2. */
  lemma CompletedPaysUnupgraded(saved: MiningState, now: int, u: Account)
    requires u.level == 1 && u.rateUpgradeLevel == 0 && u.boostUpgradeLevel == 0
    requires Running(saved) && now < saved.endTime.value ==> StartOf(saved) != saved.endTime.value
    ensures Running(saved) && now >= saved.endTime.value ==> Restore(saved, u, now).earnings == 2
  {
    PayoutReadAtCompletion(u);
  }

  /** As written, a session that completes while the page is closed pays 2
      coins whatever the player's ledger `v`, where the countdown would have
      paid `Payout(v)`; one rate upgrade already makes that 4. */
  lemma RestoreAsWrittenIgnoresLedger(now: int, v: Account)
    requires Priced(v) && now >= 0
    ensures RestoreAsWritten(StartMining(now), now + 1000 * SessionLength).earnings == 2
    ensures Restore(StartMining(now), v, now + 1000 * SessionLength).earnings == Payout(v)
    ensures Ticks(StartMining(now), v, SessionLength + 1).earnings == Payout(v)
    ensures v.level == 1 && v.rateUpgradeLevel == 1 && v.boostUpgradeLevel == 0 ==> Payout(v) == 4
  {
    AsWrittenCompletedPaysTwo(now);
    SessionCompletes(now, v);
    OneRateUpgradePaysFour(v);
  }

  lemma AsWrittenCompletedPaysTwo(now: int)
    requires now >= 0
    ensures RestoreAsWritten(StartMining(now), now + 1000 * SessionLength).earnings == 2
  {
  }

  lemma OneRateUpgradePaysFour(v: Account)
    requires Priced(v)
    ensures v.level == 1 && v.rateUpgradeLevel == 1 && v.boostUpgradeLevel == 0 ==> Payout(v) == 4
  {
    if v.level == 1 && v.rateUpgradeLevel == 1 && v.boostUpgradeLevel == 0 {
      PayoutReadAtCompletion(v.(rateUpgradeLevel := 0));
    }
  }

  // ------------------------------------------------------ claim

  /** `claimEarnings`: the session's earnings go to coins and, equally, to
      experience; nothing else in the account moves and the session is
      cleared. */
  function Claim(s: MiningState, u: Account): (r: (MiningState, Account))
    ensures r.0 == Idle
    ensures r.1.coins == u.coins + s.earnings as real
    ensures r.1.experience == u.experience + s.earnings
    ensures forall f :: f != Coins && f != Experience ==> Get(r.1, f) == Get(u, f)
  {
    var upd := NoUpdate.(coins := Some(u.coins + s.earnings as real),
                         experience := Some(u.experience + s.earnings));
    (Idle, Merge(u, upd))
  }

  /** A whole session, from start through completion to claim, credits the
      ledger's payout to both coins and experience; a second claim credits
      nothing. */
  lemma SessionLifecycle(now: int, u: Account)
    requires Priced(u)
    ensures var done := Ticks(StartMining(now), u, SessionLength + 1);
      var (idle, v) := Claim(done, u);
      && v.coins == u.coins + Payout(u) as real
      && v.experience == u.experience + Payout(u)
      && idle == Idle
      && Claim(idle, v).1 == v
  {
    SessionCompletes(now, u);
    var v := Claim(Ticks(StartMining(now), u, SessionLength + 1), u).1;
    Extensional(Claim(Idle, v).1, v);
  }
}
