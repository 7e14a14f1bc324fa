/** The upgrades panel: buying a tier of one of the three upgrade tracks,
    and how each tier's card is shown (owned, next to buy, or locked). */
module Upgrades {
  import opened Common
  import opened Progression
  import opened Ledger

  datatype Track = RateTrack | BoostTrack | TimeTrack

  function Catalog(t: Track): seq<UpgradeTier> {
    match t
    case RateTrack => RateUpgrades
    case BoostTrack => BoostUpgrades
    case TimeTrack => TimeUpgrades
  }

  lemma CatalogWellFormed(t: Track)
    ensures WellFormedCatalog(Catalog(t))
  {
    match t
    case RateTrack => RateCatalogWellFormed();
    case BoostTrack => BoostCatalogWellFormed();
    case TimeTrack => TimeCatalogWellFormed();
  }

  /** The account field holding the tier owned on a track. */
  function TrackField(t: Track): Field {
    match t
    case RateTrack => RateUpgrade
    case BoostTrack => BoostUpgrade
    case TimeTrack => TimeUpgrade
  }

  function Owned(u: Account, t: Track): int {
    match t
    case RateTrack => u.rateUpgradeLevel
    case BoostTrack => u.boostUpgradeLevel
    case TimeTrack => u.timeUpgradeLevel
  }

  /** A price is payable unless a positive price exceeds the balance; a
      price of zero or less is never checked. */
  predicate Affordable(u: Account, cost: int, tokenCost: int) {
    !(cost > 0 && u.coins < cost as real) && !(tokenCost > 0 && u.tokens < tokenCost as real)
  }

  /** `purchaseUpgrade`: when both prices are payable, debit both and set the
      track's level to the tier bought (an absolute level, not an increment);
      otherwise nothing happens. */
  function Purchase(u: Account, t: Track, level: int, cost: int, tokenCost: int): (r: Account)
    ensures !Affordable(u, cost, tokenCost) ==> r == u
    ensures Affordable(u, cost, tokenCost) ==>
      && r.coins == u.coins - cost as real
      && r.tokens == u.tokens - tokenCost as real
      && Owned(r, t) == level
    ensures forall f :: f != Coins && f != Tokens && f != TrackField(t) ==> Get(r, f) == Get(u, f)
  {
    if !Affordable(u, cost, tokenCost) then u
    else
      var debit := NoUpdate.(coins := Some(u.coins - cost as real),
                             tokens := Some(u.tokens - tokenCost as real));
      var upd := match t
        case RateTrack => debit.(rateUpgradeLevel := Some(level))
        case BoostTrack => debit.(boostUpgradeLevel := Some(level))
        case TimeTrack => debit.(timeUpgradeLevel := Some(level));
      Merge(u, upd)
  }

  /** Paying non-negative prices never takes a non-negative balance below
      zero. */
  lemma PurchaseKeepsBalancesNonNegative(u: Account, t: Track, level: int, cost: int, tokenCost: int)
    requires u.coins >= 0.0 && u.tokens >= 0.0 && cost >= 0 && tokenCost >= 0
    ensures var r := Purchase(u, t, level, cost, tokenCost); r.coins >= 0.0 && r.tokens >= 0.0
  {
  }

  datatype CardState = OwnedCard | NextCard | LockedCard

  /** A tier is owned when the track's level has reached it, next when it is
      exactly one above, and locked when it is further away. */
  function ClassifyCard(current: int, level: int): (c: CardState)
    ensures c == OwnedCard <==> current >= level
    ensures c == NextCard <==> current + 1 == level
    ensures c == LockedCard <==> current + 1 < level
  {
    if current >= level then OwnedCard
    else if current + 1 < level then LockedCard
    else NextCard
  }

  /** The card's buy button is live only for the next tier, and only while
      its price is payable. */
  predicate ButtonEnabled(u: Account, t: Track, i: int)
    requires 0 <= i < |Catalog(t)|
  {
    var tier := Catalog(t)[i];
    ClassifyCard(Owned(u, t), tier.level) == NextCard && Affordable(u, tier.cost, tier.tokenCost)
  }

  /** Pressing the button of the `i`-th card of a track's tab. A disabled or
      absent button does nothing. */
  function ClickCard(u: Account, t: Track, i: int): (r: Account)
    requires 0 <= i < |Catalog(t)|
    ensures !ButtonEnabled(u, t, i) ==> r == u
    ensures ButtonEnabled(u, t, i) ==> Owned(r, t) == Owned(u, t) + 1
  {
    var tier := Catalog(t)[i];
    if ButtonEnabled(u, t, i) then Purchase(u, t, tier.level, tier.cost, tier.tokenCost) else u
  }

  /** Through the panel a track moves one tier at a time: a click changes
      the account exactly when its button is enabled, and then the track
      rises by one and exactly that tier's price is paid, in one currency. */
  lemma ClickRaisesByOne(u: Account, t: Track, i: int)
    requires 0 <= i < |Catalog(t)|
    ensures var r := ClickCard(u, t, i);
      && (r != u <==> ButtonEnabled(u, t, i))
      && (ButtonEnabled(u, t, i) ==>
            && i == Owned(u, t)
            && Owned(r, t) == Owned(u, t) + 1
            && u.coins - r.coins == Catalog(t)[i].cost as real
            && u.tokens - r.tokens == Catalog(t)[i].tokenCost as real
            && (r.coins == u.coins || r.tokens == u.tokens))
      && (!ButtonEnabled(u, t, i) ==> r == u)
  {
    CatalogWellFormed(t);
    var tier := Catalog(t)[i];
    assert tier.level == i + 1;
    assert tier.cost > 0 || tier.tokenCost > 0 by {
      if i < CoinTiers { assert tier.cost > 0; } else { assert tier.tokenCost > 0; }
    }
    assert tier.cost == 0 || tier.tokenCost == 0 by {
      if i < CoinTiers { assert tier.tokenCost == 0; } else { assert tier.cost == 0; }
    }
  }

  /** Only the card right after the owned tier sells: clicking any other
      card of the track does nothing, whatever the balances. */
  lemma OnlyNextTierSells(u: Account, t: Track, i: int)
    requires 0 <= i < |Catalog(t)|
    requires i != Owned(u, t)
    ensures ClickCard(u, t, i) == u
  {
    CatalogWellFormed(t);
  }
}
