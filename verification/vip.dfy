/** VIP membership: three 30-day plans, the purchase confirmation that
    records the tier and its expiry, and the days left before expiry.
    Instants are milliseconds. */
module Vip {
  import opened Common
  import opened Ledger

  const DayMs: int := 1000 * 60 * 60 * 24

  datatype PaymentToken = Wbux | DogSwap | Token1000x

  /** A plan: its tier, display name, length in days and its price in each
      payment token. Benefit texts are display-only. */
  datatype VipPlan = VipPlan(level: int, name: string, duration: int,
                             wbux: real, dogswap: real, token1000x: real)

  const Plans: seq<VipPlan> := [
    VipPlan(1, "Whale Rookie", 30, 1.0, 80.0, 0.35),
    VipPlan(2, "Whale Elite", 30, 5.0, 150.0, 0.7),
    VipPlan(3, "Whale Legend", 30, 20.0, 200.0, 1.0)
  ]

  /** Tiers 1, 2, 3 in order, each lasting 30 days and dearer than the one
      below in every payment token. */
  lemma PlansShape()
    ensures |Plans| == 3
    ensures forall i :: 0 <= i < |Plans| ==> Plans[i].level == i + 1 && Plans[i].duration == 30
    ensures forall i :: 0 <= i < |Plans| - 1 ==>
      && Plans[i].wbux < Plans[i + 1].wbux
      && Plans[i].dogswap < Plans[i + 1].dogswap
      && Plans[i].token1000x < Plans[i + 1].token1000x
  {
  }

  /** `vipPlans.find(plan => plan.level === level)`. */
  function FindPlan(level: int): (r: Option<VipPlan>)
    ensures r.Some? <==> 1 <= level <= 3
    ensures r.Some? ==> r.value == Plans[level - 1] && r.value.level == level
  {
    if level == 1 then Some(Plans[0])
    else if level == 2 then Some(Plans[1])
    else if level == 3 then Some(Plans[2])
    else None
  }

  /** The plan's price in the selected token. */
  function Price(p: VipPlan, t: PaymentToken): real {
    match t
    case Wbux => p.wbux
    case DogSwap => p.dogswap
    case Token1000x => p.token1000x
  }

  /** The confirmation dialog: the tier picked, and whether it is open. */
  datatype Dialog = Dialog(confirmLevel: Option<int>, open: bool)

  /** `handlePurchaseVip`: remember the tier and open the dialog. */
  function PickPlan(level: int): (d: Dialog)
    ensures d.open && d.confirmLevel == Some(level)
  {
    Dialog(Some(level), true)
  }

  /** `confirmPurchase`: with no tier picked or an unknown tier nothing
      happens; otherwise the dialog closes and, through the profile hook
      and so only with a signed-in session, the tier is recorded and the
      expiry set to the plan's length from now. Nothing is paid: the
      balance is untouched whatever the selected token and its price. */
  function ConfirmPurchase(d: Dialog, u: Account, t: PaymentToken, now: int, hasSession: bool): (r: (Dialog, Account))
    ensures d.confirmLevel.None? || FindPlan(d.confirmLevel.value).None? ==> r == (d, u)
    ensures d.confirmLevel.Some? && FindPlan(d.confirmLevel.value).Some? ==>
      && !r.0.open && r.0.confirmLevel == d.confirmLevel
      && (!hasSession ==> r.1 == u)
      && (hasSession ==> r.1.vipLevel == d.confirmLevel.value && r.1.vipExpiry == Some(now + 30 * DayMs))
      && (forall f :: f != Vip && f != VipExpiry ==> Get(r.1, f) == Get(u, f))
  {
    match d.confirmLevel
    case None => (d, u)
    case Some(level) =>
      match FindPlan(level)
      case None => (d, u)
      case Some(plan) =>
        (d.(open := false),
         UpdateProfile(u, NoUpdate.(vipLevel := Some(level), vipExpiry := Some(Some(now + plan.duration * DayMs))),
                       hasSession).0)
  }

  /** `getDaysRemaining`: whole days to the expiry, rounded up, and 0 with
      no expiry or once it has passed. */
  function DaysRemaining(expiry: Option<int>, now: int): (days: int)
    ensures days >= 0
    ensures expiry.None? ==> days == 0
    ensures expiry.Some? ==>
      && (days == 0 <==> expiry.value <= now)
      && (days > 0 ==> (days - 1) * DayMs < expiry.value - now <= days * DayMs)
  {
    match expiry
    case None => 0
    case Some(e) => Max(0, CeilDiv(e - now, DayMs))
  }

  /** `Math.ceil(a / b)` for a positive `b`. */
  function CeilDiv(a: int, b: int): (q: int)
    requires b > 0
    ensures (q - 1) * b < a <= q * b
  {
    -((-a) / b)
  }

  /** A purchase shows 30 days; `k` whole days later it shows `30 - k`, and
      from the 30th day on it shows 0. */
  lemma PurchaseCountsDown(d: Dialog, u: Account, t: PaymentToken, now: int, k: nat)
    requires d.confirmLevel.Some? && 1 <= d.confirmLevel.value <= 3
    ensures var v := ConfirmPurchase(d, u, t, now, true).1;
      && DaysRemaining(v.vipExpiry, now) == 30
      && (k <= 30 ==> DaysRemaining(v.vipExpiry, now + k * DayMs) == 30 - k)
      && (k >= 30 ==> DaysRemaining(v.vipExpiry, now + k * DayMs) == 0)
  {
    var v := ConfirmPurchase(d, u, t, now, true).1;
    var left := v.vipExpiry.value - (now + k * DayMs);
    assert left == (30 - k) * DayMs;
    CeilExact(30 - k, DayMs);
  }

  lemma CeilExact(n: int, b: int)
    requires b > 0
    ensures CeilDiv(n * b, b) == n
  {
  }

  /** A plan's button is disabled exactly for the tier the player holds. */
  predicate PlanButtonEnabled(u: Account, p: VipPlan) {
    u.vipLevel != p.level
  }

  /** The balances stay whatever the price, and after buying a tier only
      that tier's button is disabled. */
  lemma PurchaseIsFree(d: Dialog, u: Account, t: PaymentToken, now: int)
    requires d.confirmLevel.Some? && 1 <= d.confirmLevel.value <= 3
    ensures var v := ConfirmPurchase(d, u, t, now, true).1;
      && v.tokens == u.tokens && v.coins == u.coins
      && Price(FindPlan(d.confirmLevel.value).value, t) > 0.0
      && (forall i :: 0 <= i < |Plans| ==>
            (PlanButtonEnabled(v, Plans[i]) <==> Plans[i].level != d.confirmLevel.value))
  {
    var v := ConfirmPurchase(d, u, t, now, true).1;
    assert Get(v, Tokens) == Get(u, Tokens);
    assert Get(v, Coins) == Get(u, Coins);
  }
}
