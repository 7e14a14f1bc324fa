/** The static progression table (levels 1..9) and the three nine-tier
    upgrade catalogs, with the level-from-experience rule that reads them. */
module Progression {
  import opened Common

  /** Upper end of a level's experience range; the top level has none
      (`Number.POSITIVE_INFINITY`). */
  datatype XpBound = Finite(n: int) | Unbounded

  /** One row of the progression table. Durations are hours, rates are
      coins per hour and boosts are percentages. */
  datatype LevelConfig = LevelConfig(
    xpMin: int,
    xpMax: XpBound,
    miningDuration: int,
    baseRate: real,
    miningEarnings: real,
    boost: int)

  const MaxLevel: int := 9

  /** `LEVEL_CONFIG`, row `L` at index `L - 1`. */
  const LevelTable: seq<LevelConfig> := [
    LevelConfig(0, Finite(10), 2, 1.0, 2.0, 0),
    LevelConfig(11, Finite(100), 3, 2.1, 6.3, 7),
    LevelConfig(101, Finite(1000), 4, 3.21, 12.84, 15),
    LevelConfig(1001, Finite(10000), 5, 4.4, 22.0, 23),
    LevelConfig(10001, Finite(100000), 6, 5.6, 33.6, 38),
    LevelConfig(100001, Finite(500000), 7, 6.9, 48.3, 50),
    LevelConfig(500001, Finite(1000000), 8, 8.26, 66.08, 76),
    LevelConfig(1000001, Finite(5000000), 9, 9.6, 86.4, 90),
    LevelConfig(5000001, Unbounded, 10, 11.25, 112.5, 150)
  ]

  predicate IsLevel(l: int) {
    1 <= l <= MaxLevel
  }

  /** `LEVEL_CONFIG[l]` for a level that exists. */
  function Config(l: int): LevelConfig
    requires IsLevel(l)
  {
    LevelTable[l - 1]
  }

  /** `LEVEL_CONFIG[l]` for any key: `undefined` (None) outside 1..9. */
  function Lookup(l: int): (r: Option<LevelConfig>)
    ensures r.Some? <==> IsLevel(l)
    ensures r.Some? ==> r.value == Config(l)
  {
    if IsLevel(l) then Some(Config(l)) else None
  }

  /** Experience `xp` lies in level `l`'s closed range `[xpMin, xpMax]`. */
  predicate InRange(xp: int, l: int)
    requires IsLevel(l)
  {
    Config(l).xpMin <= xp && (Config(l).xpMax.Finite? ==> xp <= Config(l).xpMax.n)
  }

  /** Levels exist exactly for 1..9, level 1 starts at zero experience and
      the minimum experience rises strictly from level to level. */
  lemma LevelKeys()
    ensures |LevelTable| == MaxLevel
    ensures Config(1).xpMin == 0
    ensures forall l :: 1 <= l < MaxLevel ==> Config(l).xpMin < Config(l + 1).xpMin
  {
  }

  /** The experience ranges tile the naturals: each finite range ends one
      below the next level's start, and only the top level is unbounded. */
  lemma RangesTile()
    ensures forall l :: 1 <= l < MaxLevel ==> Config(l).xpMax == Finite(Config(l + 1).xpMin - 1)
    ensures Config(MaxLevel).xpMax == Unbounded
  {
  }

  /** Mining lasts one hour longer than the level number; the listed
      earnings are exactly rate times duration; rate and boost grow strictly. */
  lemma LevelEconomics()
    ensures forall l :: IsLevel(l) ==> Config(l).miningDuration == l + 1
    ensures forall l :: IsLevel(l) ==>
      Config(l).miningEarnings == Config(l).baseRate * (Config(l).miningDuration as real)
    ensures forall l :: 1 <= l < MaxLevel ==> Config(l).baseRate < Config(l + 1).baseRate
    ensures forall l :: 1 <= l < MaxLevel ==> Config(l).boost < Config(l + 1).boost
    ensures forall l :: IsLevel(l) ==> Config(l).baseRate >= 1.0 && Config(l).boost >= 0
  {
  }

  // ---------------------------------------------------------------- catalogs

  /** One purchasable tier of an upgrade track: its tier number, the bonus
      the catalog lists for it and its price in coins and in tokens. */
  datatype UpgradeTier = UpgradeTier(level: int, bonus: int, cost: int, tokenCost: int)

  /** `MINING_RATE_UPGRADES` (bonus: coins per hour). */
  const RateUpgrades: seq<UpgradeTier> := [
    UpgradeTier(1, 1, 10, 0),
    UpgradeTier(2, 1, 110, 0),
    UpgradeTier(3, 1, 500, 0),
    UpgradeTier(4, 1, 1200, 0),
    UpgradeTier(5, 1, 2800, 0),
    UpgradeTier(6, 2, 0, 5),
    UpgradeTier(7, 2, 0, 10),
    UpgradeTier(8, 2, 0, 20),
    UpgradeTier(9, 3, 0, 25)
  ]

  /** `MINING_BOOST_UPGRADES` (bonus: boost percentage points). */
  const BoostUpgrades: seq<UpgradeTier> := [
    UpgradeTier(1, 5, 15, 0),
    UpgradeTier(2, 10, 130, 0),
    UpgradeTier(3, 16, 300, 0),
    UpgradeTier(4, 28, 1500, 0),
    UpgradeTier(5, 39, 2800, 0),
    UpgradeTier(6, 53, 0, 10),
    UpgradeTier(7, 69, 0, 30),
    UpgradeTier(8, 80, 0, 80),
    UpgradeTier(9, 120, 0, 120)
  ]

  /** `MINING_TIME_UPGRADES` (bonus: minutes taken off a session). */
  const TimeUpgrades: seq<UpgradeTier> := [
    UpgradeTier(1, 30, 10, 0),
    UpgradeTier(2, 30, 150, 0),
    UpgradeTier(3, 30, 500, 0),
    UpgradeTier(4, 30, 1200, 0),
    UpgradeTier(5, 30, 2500, 0),
    UpgradeTier(6, 30, 0, 15),
    UpgradeTier(7, 30, 0, 30),
    UpgradeTier(8, 30, 0, 70),
    UpgradeTier(9, 30, 0, 125)
  ]

  const CoinTiers: int := 5

  /** The shape every catalog has: nine tiers numbered 1..9 in order, each
      priced in exactly one currency (coins for tiers 1..5, tokens for 6..9),
      and prices rising strictly within each currency. */
  predicate WellFormedCatalog(c: seq<UpgradeTier>) {
    && |c| == MaxLevel
    && (forall i :: 0 <= i < |c| ==> c[i].level == i + 1)
    && (forall i :: 0 <= i < CoinTiers ==> c[i].cost > 0 && c[i].tokenCost == 0)
    && (forall i :: CoinTiers <= i < |c| ==> c[i].cost == 0 && c[i].tokenCost > 0)
    && (forall i :: 0 <= i < CoinTiers - 1 ==> c[i].cost < c[i + 1].cost)
    && (forall i :: CoinTiers <= i < |c| - 1 ==> c[i].tokenCost < c[i + 1].tokenCost)
  }

  lemma RateCatalogWellFormed()
    ensures WellFormedCatalog(RateUpgrades)
  {
    CatalogShape(RateUpgrades);
  }

  lemma BoostCatalogWellFormed()
    ensures WellFormedCatalog(BoostUpgrades)
  {
    CatalogShape(BoostUpgrades);
  }

  lemma TimeCatalogWellFormed()
    ensures WellFormedCatalog(TimeUpgrades)
  {
    CatalogShape(TimeUpgrades);
  }

  /** Checks the shape conjunct by conjunct, so each one is proved on its
      own. */
  lemma CatalogShape(c: seq<UpgradeTier>)
    requires |c| == MaxLevel
    requires forall i :: 0 <= i < |c| ==> c[i].level == i + 1
    requires forall i :: 0 <= i < CoinTiers ==> c[i].cost > 0 && c[i].tokenCost == 0
    requires forall i :: CoinTiers <= i < |c| ==> c[i].cost == 0 && c[i].tokenCost > 0
    requires forall i :: 0 <= i < CoinTiers - 1 ==> c[i].cost < c[i + 1].cost
    requires forall i :: CoinTiers <= i < |c| - 1 ==> c[i].tokenCost < c[i + 1].tokenCost
    ensures WellFormedCatalog(c)
  {
  }

  /** Besides the common shape, every time tier takes off 30 minutes. */
  lemma TimeTiersThirty()
    ensures forall i :: 0 <= i < |TimeUpgrades| ==> TimeUpgrades[i].bonus == 30
  {
  }

  // ------------------------------------------------------- level derivation

  /** The loop of the level effect: try levels `l, l - 1, ..., 1` and stop at
      the first whose minimum experience `xp` reaches; 1 when none does. */
  function ScanDown(xp: int, l: int): (r: int)
    requires 0 <= l <= MaxLevel
    ensures IsLevel(r)
    ensures forall k :: r < k <= l ==> xp < Config(k).xpMin
    ensures (r <= l && Config(r).xpMin <= xp)
         || (r == 1 && forall k :: 1 <= k <= l ==> xp < Config(k).xpMin)
    decreases l
  {
    if l == 0 then 1
    else if xp >= Config(l).xpMin then l
    else ScanDown(xp, l - 1)
  }

  /** The level the experience `xp` earns. */
  function LevelFor(xp: int): (l: int)
    ensures IsLevel(l)
    ensures xp >= 0 ==> Config(l).xpMin <= xp
    ensures xp < 0 ==> l == 1
    ensures forall k :: l < k <= MaxLevel ==> xp < Config(k).xpMin
  {
    ScanDown(xp, MaxLevel)
  }

  /** The derived level is the one whose range holds the experience, and
      that is the only level whose range holds it. */
  lemma LevelForIsRange(xp: int, l: int)
    requires xp >= 0 && IsLevel(l)
    ensures LevelFor(xp) == l <==> InRange(xp, l)
  {
    RangesTile();
    var d := LevelFor(xp);
    if d < MaxLevel {
      assert xp < Config(d + 1).xpMin;
    }
    if InRange(xp, l) {
      if l < d {
        MinIncreasing(l + 1, d);
      } else if d < l {
        MinIncreasing(d + 1, l);
      }
    }
  }

  /** Minimum experience is monotone in the level. */
  lemma {:induction false} MinIncreasing(a: int, b: int)
    requires IsLevel(a) && IsLevel(b) && a <= b
    ensures Config(a).xpMin <= Config(b).xpMin
    decreases b - a
  {
    if a < b {
      LevelKeys();
      MinIncreasing(a + 1, b);
    }
  }

  /** More experience never means a lower level. */
  lemma LevelForMonotone(x: int, y: int)
    requires x <= y
    ensures LevelFor(x) <= LevelFor(y)
  {
  }
}
