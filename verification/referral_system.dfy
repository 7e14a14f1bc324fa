/** The referral milestones: five rewards unlocked by referral counts, the
    claim of a milestone, the next milestone to aim for and how each
    milestone card is shown. */
module ReferralSystem {
  import opened Common
  import opened Ledger
  import opened Rewards

  datatype Milestone = Milestone(id: int, count: int, reward: Reward, claimed: bool)

  /** The milestones the component starts with: 1, 3, 5, 10 and 25
      referrals, the first two already claimed. */
  const InitialMilestones: seq<Milestone> := [
    Milestone(1, 1, Reward(CoinsReward, 500.0), true),
    Milestone(2, 3, Reward(BoostReward, 10.0), true),
    Milestone(3, 5, Reward(TokensReward, 0.25), false),
    Milestone(4, 10, Reward(RateReward, 2.0), false),
    Milestone(5, 25, Reward(TokensReward, 1.0), false)
  ]

  const InitialReferralCount: int := 3

  /** Identifiers are distinct and thresholds rise strictly, all positive. */
  predicate WellFormed(ms: seq<Milestone>) {
    && (forall i, j :: 0 <= i < j < |ms| ==> ms[i].id != ms[j].id)
    && (forall i, j :: 0 <= i < j < |ms| ==> ms[i].count < ms[j].count)
    && (forall i :: 0 <= i < |ms| ==> ms[i].count > 0)
  }

  lemma InitialMilestonesWellFormed()
    ensures WellFormed(InitialMilestones)
  {
  }

  /** The milestones with identifier `id` marked claimed; nothing else
      changes. */
  function MarkClaimed(ms: seq<Milestone>, id: int): (r: seq<Milestone>)
    ensures |r| == |ms|
    ensures forall i :: 0 <= i < |ms| ==>
      r[i] == if ms[i].id == id then ms[i].(claimed := true) else ms[i]
  {
    seq(|ms|, i requires 0 <= i < |ms| =>
      if ms[i].id == id then ms[i].(claimed := true) else ms[i])
  }

  /** `claimMilestoneReward` as written: the milestone is marked claimed and
      the account is left as it was. */
  function ClaimMilestoneAsWritten(ms: seq<Milestone>, u: Account, id: int): (r: (seq<Milestone>, Account))
    ensures r.0 == MarkClaimed(ms, id)
    ensures r.1 == u
  {
    (MarkClaimed(ms, id), u)
  }

  /** The position of the first milestone with identifier `id`, if any. */
  function Find(ms: seq<Milestone>, id: int): (r: Option<nat>)
    ensures r.Some? ==> r.value < |ms| && ms[r.value].id == id
    ensures r.Some? ==> forall j :: 0 <= j < r.value ==> ms[j].id != id
    ensures r.None? ==> forall j :: 0 <= j < |ms| ==> ms[j].id != id
  {
    IndexOf(MilestoneIds(ms), id)
  }

  /** The milestones' identifiers, in order; the same projection as
      `Tasks.TaskIds` and `ReferralMarket.OfferIds` on their records. */
  function MilestoneIds(ms: seq<Milestone>): (ids: seq<int>)
    ensures |ids| == |ms| && forall j :: 0 <= j < |ms| ==> ids[j] == ms[j].id
  {
    seq(|ms|, j requires 0 <= j < |ms| => ms[j].id)
  }

  /** The claim as its label promises: an unclaimed milestone is marked
      claimed and its reward is paid, through the same rule the login
      calendar uses; claiming a claimed or unknown milestone does nothing. */
  function ClaimMilestone(ms: seq<Milestone>, u: Account, id: int): (r: (seq<Milestone>, Account))
    ensures Find(ms, id).None? ==> r == (ms, u)
    ensures Find(ms, id).Some? && ms[Find(ms, id).value].claimed ==> r == (ms, u)
    ensures Find(ms, id).Some? && !ms[Find(ms, id).value].claimed ==>
      r == (MarkClaimed(ms, id), ApplyReward(u, ms[Find(ms, id).value].reward))
  {
    match Find(ms, id)
    case None => (ms, u)
    case Some(i) =>
      if ms[i].claimed then (ms, u) else (MarkClaimed(ms, id), ApplyReward(u, ms[i].reward))
  }

  /** As written, claiming milestone 3 at five referrals marks it claimed
      yet adds none of its quarter token; the corrected claim adds it. */
  lemma ClaimMilestoneAsWrittenPaysNothing(u: Account)
    ensures var (ms, v) := ClaimMilestoneAsWritten(InitialMilestones, u, 3);
      ms[2].claimed && v.tokens == u.tokens
    ensures var (ms, v) := ClaimMilestone(InitialMilestones, u, 3);
      ms[2].claimed && v.tokens == u.tokens + 0.25
  {
    assert Find(InitialMilestones, 3) == Some(2);
  }

  /** The corrected claim pays each milestone once: claiming again is a
      no-op, and on distinct identifiers the claim changes only flags. */
  lemma ClaimMilestonePaysOnce(ms: seq<Milestone>, u: Account, id: int)
    requires WellFormed(ms)
    ensures var (ms1, u1) := ClaimMilestone(ms, u, id);
      && ClaimMilestone(ms1, u1, id) == (ms1, u1)
      && |ms1| == |ms|
      && (forall i :: 0 <= i < |ms| ==> ms1[i].count == ms[i].count && ms1[i].reward == ms[i].reward)
  {
    var (ms1, u1) := ClaimMilestone(ms, u, id);
    match Find(ms, id)
    case None =>
    case Some(i) =>
      if !ms[i].claimed {
        assert Find(ms1, id) == Some(i) by {
          FindIgnoresClaims(ms, ms1, id);
        }
      }
  }

  /** Find looks only at identifiers. */
  lemma FindIgnoresClaims(ms: seq<Milestone>, ns: seq<Milestone>, id: int)
    requires |ms| == |ns|
    requires forall i :: 0 <= i < |ms| ==> ms[i].id == ns[i].id
    ensures Find(ms, id) == Find(ns, id)
  {
    assert MilestoneIds(ms) == MilestoneIds(ns);
  }

  // -------------------------------------------------------- next milestone

  /** `getNextMilestone`: the first milestone above the referral count, or
      the last one when every threshold is reached; none for an empty list. */
  function NextMilestone(ms: seq<Milestone>, n: int): (r: Option<Milestone>)
    ensures r.None? <==> |ms| == 0
    ensures r.Some? && r.value.count > n ==>
      exists i :: 0 <= i < |ms| && ms[i] == r.value && forall j :: 0 <= j < i ==> ms[j].count <= n
    ensures r.Some? && r.value.count <= n ==>
      r.value == ms[|ms| - 1] && forall j :: 0 <= j < |ms| ==> ms[j].count <= n
  {
    if |ms| == 0 then None
    else match FirstAbove(ms, n)
      case Some(i) => Some(ms[i])
      case None => Some(ms[|ms| - 1])
  }

  function FirstAbove(ms: seq<Milestone>, n: int): (r: Option<nat>)
    ensures r.Some? ==> r.value < |ms| && ms[r.value].count > n
    ensures r.Some? ==> forall j :: 0 <= j < r.value ==> ms[j].count <= n
    ensures r.None? ==> forall j :: 0 <= j < |ms| ==> ms[j].count <= n
  {
    if |ms| == 0 then None
    else if ms[0].count > n then Some(0)
    else match FirstAbove(ms[1..], n)
      case Some(k) => Some(k + 1)
      case None => None
  }

  /** With rising thresholds the next milestone is the one with the smallest
      threshold above the count. */
  lemma NextMilestoneIsSmallestAbove(ms: seq<Milestone>, n: int, k: int)
    requires WellFormed(ms) && 0 <= k < |ms| && ms[k].count > n
    ensures NextMilestone(ms, n).Some?
    ensures NextMilestone(ms, n).value.count > n
    ensures NextMilestone(ms, n).value.count <= ms[k].count
  {
  }

  /** The progress bar: referrals as a percentage of the next milestone's
      threshold (100 with no milestone at all). Thresholds are positive, so
      the percentage is below 100 exactly while a milestone is still ahead. */
  function ReferralProgress(ms: seq<Milestone>, n: int): (p: real)
    requires forall i :: 0 <= i < |ms| ==> ms[i].count > 0
    ensures NextMilestone(ms, n).None? ==> p == 100.0
    ensures NextMilestone(ms, n).Some? ==> p * (NextMilestone(ms, n).value.count as real) == (n as real) * 100.0
    ensures n >= 0 ==> p >= 0.0
    ensures NextMilestone(ms, n).Some? ==> (p < 100.0 <==> n < NextMilestone(ms, n).value.count)
  {
    match NextMilestone(ms, n)
    case None => 100.0
    case Some(m) =>
      NextIsListed(ms, n);
      Percent(n, m.count)
  }

  lemma NextIsListed(ms: seq<Milestone>, n: int)
    requires forall i :: 0 <= i < |ms| ==> ms[i].count > 0
    ensures NextMilestone(ms, n).Some? ==> NextMilestone(ms, n).value.count > 0
  {
  }

  /** `n / d * 100` for a positive `d`: below 100 exactly when `n < d`. */
  function Percent(n: int, d: int): (p: real)
    requires d > 0
    ensures p * (d as real) == (n as real) * 100.0
    ensures n >= 0 ==> p >= 0.0
    ensures p < 100.0 <==> n < d
  {
    QuotientBelowOne(n, d);
    ((n as real) / (d as real)) * 100.0
  }

  lemma QuotientBelowOne(n: int, d: int)
    requires d > 0
    ensures ((n as real) / (d as real)) * (d as real) == n as real
    ensures n >= 0 ==> (n as real) / (d as real) >= 0.0
    ensures (n as real) / (d as real) < 1.0 <==> n < d
  {
    var q := (n as real) / (d as real);
    assert q * (d as real) == n as real;
    if n < d {
      assert q < 1.0;
    } else {
      assert q >= 1.0;
    }
  }

  /** With the starting data the next milestone is 5 referrals, 60% of the
      way there. */
  lemma InitialProgress()
    ensures NextMilestone(InitialMilestones, InitialReferralCount).value.count == 5
    ensures ReferralProgress(InitialMilestones, InitialReferralCount) == 60.0
  {
    assert FirstAbove(InitialMilestones, 3) == Some(2);
  }

  // ------------------------------------------------------------- card state

  datatype MilestoneStatus = ClaimedBadge | ClaimButton | MoreNeeded(more: int)

  /** A claimed milestone shows its badge; a reached one shows the claim
      button; otherwise the card says how many more referrals are needed,
      always at least one. */
  function Status(m: Milestone, n: int): (st: MilestoneStatus)
    ensures st == ClaimedBadge <==> m.claimed
    ensures st == ClaimButton <==> !m.claimed && m.count <= n
    ensures st.MoreNeeded? ==> st.more >= 1 && n + st.more == m.count
  {
    if m.claimed then ClaimedBadge
    else if m.count <= n then ClaimButton
    else MoreNeeded(m.count - n)
  }

  /** With the starting data no card offers a claim: the two reached
      milestones are already claimed. */
  lemma InitialNothingToClaim()
    ensures forall i :: 0 <= i < |InitialMilestones| ==>
      Status(InitialMilestones[i], InitialReferralCount) != ClaimButton
  {
  }
}
