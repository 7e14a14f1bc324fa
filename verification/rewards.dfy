/** The reward descriptor shared by the login calendar, the referral
    milestones and the task lists, and the one rule that turns a reward into
    an account update: currency rewards add their amount, upgrade rewards add
    one level whatever their amount says. */
module Rewards {
  import opened Common
  import opened Ledger

  datatype RewardKind = CoinsReward | TokensReward | BoostReward | RateReward | TimeReward

  /** `{ type, amount }`. For the three upgrade kinds the amount is only a
      label shown to the player. */
  datatype Reward = Reward(kind: RewardKind, amount: real)

  /** The `updates` object a reward produces: exactly one field, computed
      from the account as it is now. */
  function RewardUpdate(u: Account, r: Reward): Update {
    match r.kind
    case CoinsReward => NoUpdate.(coins := Some(u.coins + r.amount))
    case TokensReward => NoUpdate.(tokens := Some(u.tokens + r.amount))
    case BoostReward => NoUpdate.(boostUpgradeLevel := Some(u.boostUpgradeLevel + 1))
    case RateReward => NoUpdate.(rateUpgradeLevel := Some(u.rateUpgradeLevel + 1))
    case TimeReward => NoUpdate.(timeUpgradeLevel := Some(u.timeUpgradeLevel + 1))
  }

  /** The field a reward of this kind pays into. */
  function Target(k: RewardKind): Field {
    match k
    case CoinsReward => Coins
    case TokensReward => Tokens
    case BoostReward => BoostUpgrade
    case RateReward => RateUpgrade
    case TimeReward => TimeUpgrade
  }

  /** Applying a reward: coins and tokens grow by the amount, an upgrade
      level grows by exactly one, and no other field moves. */
  function ApplyReward(u: Account, r: Reward): (v: Account)
    ensures forall f :: f != Target(r.kind) ==> Get(v, f) == Get(u, f)
    ensures r.kind == CoinsReward ==> v.coins == u.coins + r.amount
    ensures r.kind == TokensReward ==> v.tokens == u.tokens + r.amount
    ensures r.kind == BoostReward ==> v.boostUpgradeLevel == u.boostUpgradeLevel + 1
    ensures r.kind == RateReward ==> v.rateUpgradeLevel == u.rateUpgradeLevel + 1
    ensures r.kind == TimeReward ==> v.timeUpgradeLevel == u.timeUpgradeLevel + 1
  {
    Merge(u, RewardUpdate(u, r))
  }

  /** A reward paid through the profile-backed `updateUserData`: with a
      signed-in session the account takes the reward; without one the hook
      returns before touching the record. */
  function PayReward(u: Account, r: Reward, hasSession: bool): (v: Account)
    ensures hasSession ==> v == ApplyReward(u, r)
    ensures !hasSession ==> v == u
  {
    UpdateProfile(u, RewardUpdate(u, r), hasSession).0
  }

  predicate IsUpgradeKind(k: RewardKind) {
    k == BoostReward || k == RateReward || k == TimeReward
  }

  /** For upgrade rewards the amount plays no part in what is applied. */
  lemma UpgradeAmountIgnored(u: Account, k: RewardKind, a: real, b: real)
    requires IsUpgradeKind(k)
    ensures ApplyReward(u, Reward(k, a)) == ApplyReward(u, Reward(k, b))
  {
    Extensional(ApplyReward(u, Reward(k, a)), ApplyReward(u, Reward(k, b)));
  }

  /** A reward with a non-negative amount never makes a balance negative,
      never lowers an upgrade level, and leaves the experience and level as
      they were. */
  lemma RewardKeepsBalances(u: Account, r: Reward)
    requires r.amount >= 0.0
    ensures var v := ApplyReward(u, r);
      && v.coins >= u.coins && v.tokens >= u.tokens
      && v.rateUpgradeLevel >= u.rateUpgradeLevel
      && v.boostUpgradeLevel >= u.boostUpgradeLevel
      && v.timeUpgradeLevel >= u.timeUpgradeLevel
      && v.experience == u.experience && v.level == u.level
  {
    var v := ApplyReward(u, r);
    assert Get(v, Experience) == Get(u, Experience);
    assert Get(v, Level) == Get(u, Level);
    if r.kind != CoinsReward { assert Get(v, Coins) == Get(u, Coins); }
    if r.kind != TokensReward { assert Get(v, Tokens) == Get(u, Tokens); }
    if r.kind != RateReward { assert Get(v, RateUpgrade) == Get(u, RateUpgrade); }
    if r.kind != BoostReward { assert Get(v, BoostUpgrade) == Get(u, BoostUpgrade); }
    if r.kind != TimeReward { assert Get(v, TimeUpgrade) == Get(u, TimeUpgrade); }
  }

  /** Reward grants are not purchases: they raise an upgrade level past the
      catalog's last tier without any check. */
  lemma RewardExceedsCatalog(u: Account)
    requires u.rateUpgradeLevel == 9
    ensures ApplyReward(u, Reward(RateReward, 1.0)).rateUpgradeLevel == 10
  {
  }
}
