/** The referral market: offers other players publish, the player's own
    offers, and the tasks the player has taken on. Accepting moves an offer
    into the tasks, completing pays its reward in coins, cancelling hands it
    back to the market. */
module ReferralMarket {
  import opened Common
  import opened Text
  import opened Ledger

  datatype OfferStatus = Active | Completed | Expired

  /** An offer; `kind` is the platform (telegram, twitter, ...) and `reward`
      the coins it pays. */
  datatype Offer = Offer(
    id: string,
    creator: string,
    title: string,
    description: string,
    kind: string,
    reward: real,
    link: string,
    status: OfferStatus)

  /** The three lists the component keeps. */
  datatype Market = Market(offers: seq<Offer>, myOffers: seq<Offer>, myTasks: seq<Offer>)

  /** The offer form: every field is text, the reward included. */
  datatype Form = Form(kind: string, title: string, description: string, reward: string, link: string)

  const EmptyForm: Form := Form("airdrop", "", "", "", "")

  const PlayerName: string := "test_user"

  /** `find`: the first offer with the identifier. */
  function FindOffer(os: seq<Offer>, id: string): (r: Option<nat>)
    ensures r.Some? ==> r.value < |os| && os[r.value].id == id
    ensures r.Some? ==> forall j :: 0 <= j < r.value ==> os[j].id != id
    ensures r.None? ==> forall j :: 0 <= j < |os| ==> os[j].id != id
  {
    IndexOf(OfferIds(os), id)
  }

  /** The offers' identifiers, in order; the same projection as
      `Tasks.TaskIds` and `ReferralSystem.MilestoneIds` on their records. */
  function OfferIds(os: seq<Offer>): (ids: seq<string>)
    ensures |ids| == |os| && forall j :: 0 <= j < |os| ==> ids[j] == os[j].id
  {
    seq(|os|, j requires 0 <= j < |os| => os[j].id)
  }

  /** `filter(o => o.id !== id)`: every offer with another identifier, in
      order; a list without the identifier comes back unchanged. */
  function Remove(os: seq<Offer>, id: string): (r: seq<Offer>)
    ensures forall j :: 0 <= j < |r| ==> r[j].id != id
    ensures forall o :: o in os && o.id != id ==> o in r
    ensures forall o :: o in r ==> o in os
    ensures (forall j :: 0 <= j < |os| ==> os[j].id != id) ==> r == os
  {
    if |os| == 0 then []
    else
      var rest := Remove(os[1..], id);
      assert forall o :: o in os <==> o == os[0] || o in os[1..];
      if os[0].id == id then rest else [os[0]] + rest
  }

  /** Removing keeps the other offers in their order. */
  lemma {:induction false} RemoveKeepsOrder(os: seq<Offer>, id: string)
    ensures Subsequence(Remove(os, id), os)
  {
    if |os| > 0 {
      var rest := Remove(os[1..], id);
      RemoveKeepsOrder(os[1..], id);
      if os[0].id != id {
        assert Remove(os, id) == [os[0]] + rest;
        assert ([os[0]] + rest)[1..] == rest;
      }
    }
  }

  /** Removing keeps every other offer as often as it was there: only
      copies of the removed identifier go. */
  lemma {:induction false} RemoveKeepsCount(os: seq<Offer>, id: string, o: Offer)
    requires o.id != id
    ensures multiset(Remove(os, id))[o] == multiset(os)[o]
  {
    if |os| > 0 {
      var rest := Remove(os[1..], id);
      RemoveKeepsCount(os[1..], id, o);
      assert os == [os[0]] + os[1..];
      if os[0].id != id {
        assert Remove(os, id) == [os[0]] + rest;
      }
    }
  }

  /** `createOffer`: with any of title, description, reward text or link
      empty nothing happens; otherwise a new active offer by the player,
      named after the clock, goes to the front of the player's offers and
      the form is cleared. `amount` is what `Number` makes of the reward
      text. No coins are taken. */
  function CreateOffer(m: Market, f: Form, amount: real, now: nat): (r: (Market, Form))
    ensures (f.title == "" || f.description == "" || f.reward == "" || f.link == "") ==> r == (m, f)
    ensures f.title != "" && f.description != "" && f.reward != "" && f.link != "" ==>
      && r.1 == EmptyForm
      && r.0.offers == m.offers && r.0.myTasks == m.myTasks
      && |r.0.myOffers| == |m.myOffers| + 1
      && r.0.myOffers[1..] == m.myOffers
      && r.0.myOffers[0] == Offer("offer" + NatToString(now), PlayerName, f.title, f.description,
                                  f.kind, amount, f.link, Active)
  {
    if f.title == "" || f.description == "" || f.reward == "" || f.link == "" then (m, f)
    else
      var o := Offer("offer" + NatToString(now), PlayerName, f.title, f.description, f.kind, amount, f.link, Active);
      (m.(myOffers := [o] + m.myOffers), EmptyForm)
  }

  /** The create button: every text field filled and the reward no more
      than the player's coins. */
  predicate CreateEnabled(f: Form, amount: real, coins: real) {
    f.title != "" && f.description != "" && f.reward != "" && f.link != "" && !(amount > coins)
  }

  /** An enabled button always publishes, and the new offer never promises
      more coins than the player holds; yet creating costs nothing. */
  lemma CreateEnabledPublishes(m: Market, f: Form, amount: real, now: nat, u: Account)
    requires CreateEnabled(f, amount, u.coins)
    ensures var (m1, _) := CreateOffer(m, f, amount, now);
      |m1.myOffers| == |m.myOffers| + 1 && m1.myOffers[0].reward <= u.coins
  {
  }

  /** `acceptOffer`: an unknown offer does nothing; otherwise the offer,
      made active, goes to the front of the player's tasks and leaves the
      market. */
  function AcceptOffer(m: Market, id: string): (r: Market)
    ensures FindOffer(m.offers, id).None? ==> r == m
    ensures FindOffer(m.offers, id).Some? ==>
      && r.myTasks == [m.offers[FindOffer(m.offers, id).value].(status := Active)] + m.myTasks
      && r.offers == Remove(m.offers, id)
      && r.myOffers == m.myOffers
  {
    match FindOffer(m.offers, id)
    case None => m
    case Some(i) =>
      m.(myTasks := [m.offers[i].(status := Active)] + m.myTasks, offers := Remove(m.offers, id))
  }

  /** Every task with the identifier marked completed. */
  function MarkCompleted(ts: seq<Offer>, id: string): (r: seq<Offer>)
    ensures |r| == |ts|
    ensures forall j :: 0 <= j < |ts| ==>
      r[j] == if ts[j].id == id then ts[j].(status := Completed) else ts[j]
  {
    seq(|ts|, j requires 0 <= j < |ts| => if ts[j].id == id then ts[j].(status := Completed) else ts[j])
  }

  /** `completeTask`: an unknown or completed task does nothing; otherwise
      the task is marked completed and its reward is added to the coins
      through the profile hook, which changes nothing without a signed-in
      session. */
  function CompleteTask(m: Market, u: Account, id: string, hasSession: bool): (r: (Market, Account))
    ensures FindOffer(m.myTasks, id).None? ==> r == (m, u)
    ensures FindOffer(m.myTasks, id).Some? && m.myTasks[FindOffer(m.myTasks, id).value].status == Completed ==>
      r == (m, u)
    ensures FindOffer(m.myTasks, id).Some? && m.myTasks[FindOffer(m.myTasks, id).value].status != Completed ==>
      && r.0 == m.(myTasks := MarkCompleted(m.myTasks, id))
      && (hasSession ==> r.1.coins == u.coins + m.myTasks[FindOffer(m.myTasks, id).value].reward)
      && (!hasSession ==> r.1 == u)
      && (forall f :: f != Coins ==> Get(r.1, f) == Get(u, f))
  {
    match FindOffer(m.myTasks, id)
    case None => (m, u)
    case Some(i) =>
      var t := m.myTasks[i];
      if t.status == Completed then (m, u)
      else (m.(myTasks := MarkCompleted(m.myTasks, id)),
            UpdateProfile(u, NoUpdate.(coins := Some(u.coins + t.reward)), hasSession).0)
  }

  /** A task pays once: completing it again changes nothing. */
  lemma CompleteTaskPaysOnce(m: Market, u: Account, id: string, hasSession: bool)
    ensures var (m1, u1) := CompleteTask(m, u, id, hasSession); CompleteTask(m1, u1, id, hasSession) == (m1, u1)
  {
    var (m1, u1) := CompleteTask(m, u, id, hasSession);
    match FindOffer(m.myTasks, id)
    case None =>
    case Some(i) =>
      if m.myTasks[i].status != Completed {
        assert FindOffer(m1.myTasks, id) == Some(i) by {
          FindIgnoresStatus(m.myTasks, m1.myTasks, id);
        }
      }
  }

  lemma FindIgnoresStatus(os: seq<Offer>, ps: seq<Offer>, id: string)
    requires |os| == |ps|
    requires forall j :: 0 <= j < |os| ==> os[j].id == ps[j].id
    ensures FindOffer(os, id) == FindOffer(ps, id)
  {
    assert OfferIds(os) == OfferIds(ps);
  }

  /** `cancelTask`: an unknown or completed task does nothing; otherwise
      every task with the identifier is dropped and, unless the player
      created that offer, it returns active to the front of the market. */
  function CancelTask(m: Market, id: string): (r: Market)
    ensures FindOffer(m.myTasks, id).None? ==> r == m
    ensures FindOffer(m.myTasks, id).Some? && m.myTasks[FindOffer(m.myTasks, id).value].status == Completed ==>
      r == m
    ensures FindOffer(m.myTasks, id).Some? && m.myTasks[FindOffer(m.myTasks, id).value].status != Completed ==>
      && r.myTasks == Remove(m.myTasks, id)
      && r.myOffers == m.myOffers
      && (FindOffer(m.myOffers, id).Some? ==> r.offers == m.offers)
      && (FindOffer(m.myOffers, id).None? ==>
            r.offers == [m.myTasks[FindOffer(m.myTasks, id).value].(status := Active)] + m.offers)
  {
    match FindOffer(m.myTasks, id)
    case None => m
    case Some(i) =>
      var t := m.myTasks[i];
      if t.status == Completed then m
      else
        var m1 := m.(myTasks := Remove(m.myTasks, id));
        if FindOffer(m.myOffers, id).Some? then m1
        else m1.(offers := [t.(status := Active)] + m.offers)
  }

  /** Accepting an offer and cancelling it hands the offer back: the tasks
      are as before and the market holds the same offers, the cancelled one
      now in front and active. An offer already at the front and active
      comes back to exactly the market it left. */
  lemma AcceptThenCancel(m: Market, id: string)
    requires FindOffer(m.offers, id).Some?
    requires FindOffer(m.myTasks, id).None? && FindOffer(m.myOffers, id).None?
    ensures var o := m.offers[FindOffer(m.offers, id).value];
      var r := CancelTask(AcceptOffer(m, id), id);
      && r.myTasks == m.myTasks
      && r.myOffers == m.myOffers
      && r.offers == [o.(status := Active)] + Remove(m.offers, id)
    ensures FindOffer(m.offers, id) == Some(0) && m.offers[0].status == Active &&
            FindOffer(m.offers[1..], id).None? ==>
      CancelTask(AcceptOffer(m, id), id) == m
  {
    var i := FindOffer(m.offers, id).value;
    var o := m.offers[i];
    var a := AcceptOffer(m, id);
    assert FindOffer(a.myTasks, id) == Some(0);
    assert Remove(a.myTasks, id) == Remove(m.myTasks, id);
    if i == 0 && o.status == Active && FindOffer(m.offers[1..], id).None? {
      assert Remove(m.offers, id) == Remove(m.offers[1..], id) == m.offers[1..];
      assert [o.(status := Active)] + m.offers[1..] == m.offers;
    }
  }
}
