/** The statistics panel: the effective mining figures it derives from the
    account (its own duration rule, unlike the running session's), the
    preview of the next level and the experience progress bar. */
module Stats {
  import opened Common
  import opened Progression
  import opened Ledger
  import opened Mining

  /** Session length in minutes as the panel computes it: the level's hours
      less 30 minutes per time upgrade, never below 30. */
  function Duration(u: Account): (m: int)
    requires Priced(u)
    ensures m >= 30
    ensures m >= Config(u.level).miningDuration * 60 - 30 * u.timeUpgradeLevel
    ensures m == 30 || m == Config(u.level).miningDuration * 60 - 30 * u.timeUpgradeLevel
  {
    Max(Config(u.level).miningDuration * 60 - u.timeUpgradeLevel * 30, 30)
  }

  /** Potential earnings as the panel shows them, before rounding down. */
  function PanelPotential(u: Account): (p: real)
    requires Priced(u)
    ensures p * (SessionLength as real) == Potential(u) * (Duration(u) as real)
  {
    EarningsScale(Rate(u), Duration(u), SessionLength, Boost(u));
    Earnings(Rate(u), Duration(u), Boost(u))
  }

  /** Earnings are proportional to the duration. */
  lemma EarningsScale(rate: real, m: int, n: int, boost: int)
    ensures Earnings(rate, m, boost) * (n as real) == Earnings(rate, n, boost) * (m as real)
  {
    var k := rate * (1.0 + boost as real / 100.0);
    assert Earnings(rate, m, boost) == k * (m as real / 60.0);
    assert Earnings(rate, n, boost) == k * (n as real / 60.0);
  }

  /** The panel's potential is the session's potential scaled by the panel's
      duration over the 120 one-unit ticks a session really lasts, so the
      two figures agree exactly when the panel's duration is 120 minutes. */
  lemma PanelVersusSession(u: Account)
    requires Priced(u) && u.rateUpgradeLevel >= 0 && u.boostUpgradeLevel >= 0
    ensures PanelPotential(u) * (SessionLength as real) == Potential(u) * (Duration(u) as real)
    ensures PanelPotential(u) == Potential(u) <==> Duration(u) == SessionLength
  {
    PotentialPositive(u);
    ScaledEqual(PanelPotential(u), Potential(u), Duration(u) as real, SessionLength as real);
  }

  lemma PotentialPositive(u: Account)
    requires Priced(u) && u.rateUpgradeLevel >= 0 && u.boostUpgradeLevel >= 0
    ensures Potential(u) > 0.0
  {
    PayoutBounds(u);
  }

  lemma ScaledEqual(p: real, q: real, m: real, n: real)
    requires q > 0.0 && n > 0.0 && p * n == q * m
    ensures p == q <==> m == n
  {
    if p == q {
      assert q * (n - m) == 0.0;
    }
    if m == n {
      assert (p - q) * n == 0.0;
    }
  }

  /** A level-1 account with no upgrades sees the same figure on both
      panels; at level 2 the panel promises three hours' worth while the
      session pays for 120 ticks. */
  lemma PanelExamples(u: Account)
    requires u.rateUpgradeLevel == 0 && u.boostUpgradeLevel == 0 && u.timeUpgradeLevel == 0
    requires u.level == 2
    ensures PanelPotential(u) == Potential(u) * 1.5
    ensures PanelPotential(u.(level := 1)) == Potential(u.(level := 1))
  {
    PanelVersusSession(u);
  }

  /** `LEVEL_CONFIG[level + 1] || levelConfig`: the next row, or the current
      one at the top level. The preview never shows worse figures. */
  function NextConfig(l: int): (c: LevelConfig)
    requires IsLevel(l)
    ensures l < MaxLevel ==> c == Config(l + 1)
    ensures l == MaxLevel ==> c == Config(l)
    ensures c.baseRate >= Config(l).baseRate && c.boost >= Config(l).boost
    ensures c.miningDuration >= Config(l).miningDuration
  {
    LevelEconomics();
    match Lookup(l + 1)
    case Some(next) => next
    case None => Config(l)
  }

  /** The experience bar: percent of the level's range covered. The top
      level's range is infinite, so its bar stays at zero. */
  function XpProgress(u: Account): (p: real)
    requires Priced(u)
    ensures Config(u.level).xpMax.Unbounded? ==> p == 0.0
    ensures Config(u.level).xpMax.Finite? ==>
      p * (Config(u.level).xpMax.n - Config(u.level).xpMin) as real
        == (u.experience - Config(u.level).xpMin) as real * 100.0
    ensures Config(u.level).xpMax.Finite? && InRange(u.experience, u.level) ==>
      0.0 <= p <= 100.0 &&
      (p == 100.0 <==> u.experience == Config(u.level).xpMax.n) &&
      (p == 0.0 <==> u.experience == Config(u.level).xpMin)
  {
    var c := Config(u.level);
    RangesTile();
    LevelKeys();
    match c.xpMax
    case Unbounded => 0.0
    case Finite(hi) =>
      assert hi > c.xpMin;
      ((u.experience - c.xpMin) as real / (hi - c.xpMin) as real) * 100.0
  }

  // ------------------------------------------------- experience still needed

  /** "XP needed for Level L+1" as the panel computes it: the level's upper
      bound less the experience; infinite (None) at the top level. */
  function XpNeededAsWritten(u: Account): (n: Option<int>)
    requires Priced(u)
    ensures n.Some? <==> u.level < MaxLevel
    ensures n.Some? ==> u.experience + n.value == Config(u.level).xpMax.n
  {
    RangesTile();
    match Config(u.level).xpMax
    case Finite(hi) => Some(hi - u.experience)
    case Unbounded => None
  }

  /** The experience really needed for the next level: the next level's
      minimum less the experience; None at the top level. */
  function XpNeeded(u: Account): (n: Option<int>)
    requires Priced(u)
    ensures n.Some? <==> u.level < MaxLevel
    ensures n.Some? ==> n.value == Config(u.level + 1).xpMin - u.experience
  {
    match Lookup(u.level + 1)
    case Some(next) => Some(next.xpMin - u.experience)
    case None => None
  }

  /** The panel's figure is one short of what the next level needs. */
  lemma XpNeededAsWrittenShort(u: Account)
    requires Priced(u) && u.level < MaxLevel
    ensures XpNeededAsWritten(u).value == XpNeeded(u).value - 1
  {
    RangesTile();
  }

  /** Earning exactly the displayed amount leaves a level-1 player with 10
      experience still at level 1. */
  lemma XpNeededAsWrittenCounterexample(u: Account)
    requires u.level == 1 && u.experience == 10
    ensures XpNeededAsWritten(u) == Some(0)
    ensures LevelFor(u.experience + XpNeededAsWritten(u).value) == 1
  {
    LevelForIsRange(10, 1);
  }

  /** For an account whose level matches its experience below the top, the
      corrected figure is positive, earning it reaches the next level, and
      earning any less does not. */
  lemma XpNeededReachesNextLevel(u: Account, k: int)
    requires Priced(u) && u.level < MaxLevel && u.experience >= 0
    requires LevelFor(u.experience) == u.level
    ensures XpNeeded(u).value >= 1
    ensures LevelFor(u.experience + XpNeeded(u).value) == u.level + 1
    ensures 0 <= k < XpNeeded(u).value ==> LevelFor(u.experience + k) == u.level
  {
    var l, x := u.level, u.experience;
    var lo := Config(l + 1).xpMin;
    assert XpNeeded(u) == Some(lo - x);
    BelowNextMin(x, l);
    NextMinStartsNext(l);
    assert x + (lo - x) == lo;
    if 0 <= k < lo - x {
      BelowNextMin(x + k, l);
    }
  }

  /** Experience of level `l` lies below the next level's minimum, and any
      amount from there up to that minimum still belongs to level `l`. */
  lemma BelowNextMin(x: int, l: int)
    requires 1 <= l < MaxLevel && x >= 0
    requires LevelFor(x) == l || (Config(l).xpMin <= x < Config(l + 1).xpMin)
    ensures x < Config(l + 1).xpMin && LevelFor(x) == l
  {
    RangeEnd(l);
    LevelForIsRange(x, l);
  }

  /** The next level's minimum already belongs to the next level. */
  lemma NextMinStartsNext(l: int)
    requires 1 <= l < MaxLevel
    ensures Config(l + 1).xpMin >= 0 && LevelFor(Config(l + 1).xpMin) == l + 1
  {
    var lo := Config(l + 1).xpMin;
    LevelKeys();
    assert InRange(lo, l + 1) by {
      if l + 1 < MaxLevel {
        RangeEnd(l + 1);
      }
    }
    LevelForIsRange(lo, l + 1);
  }

  /** A finite range ends one below the next level's minimum. */
  lemma RangeEnd(l: int)
    requires 1 <= l < MaxLevel
    ensures Config(l).xpMax == Finite(Config(l + 1).xpMin - 1)
  {
    RangesTile();
  }
}
