/** The mining dashboard: the MM:SS countdown text, the potential shown
    before a session, and which of the three panels (progress, claim,
    start) is on screen. */
module Dashboard {
  import opened Text
  import opened Ledger
  import opened Mining

  /** `formatTime`: whole minutes and leftover seconds, each padded to two
      digits, joined by a colon. The field before the colon reads back as
      the whole minutes and the one after it as the leftover seconds. */
  function FormatTime(seconds: nat): (r: string)
    ensures |r| >= 5 && r[|r| - 3] == ':'
    ensures AllDigits(r[..|r| - 3]) && AllDigits(r[|r| - 2..])
    ensures DigitsValue(r[..|r| - 3]) == seconds / 60
    ensures DigitsValue(r[|r| - 2..]) == seconds % 60
    ensures seconds < 6000 <==> |r| == 5
    ensures ParseClock(r) == seconds
  {
    var q, s := seconds / 60, seconds % 60;
    var m := PadStart2(NatToString(q));
    var c := PadStart2(NatToString(s));
    PaddedFieldValue(q);
    PaddedFieldValue(s);
    ColonFields(m, c);
    m + ":" + c
  }

  /** Reading a clock text back: the digits before the colon are minutes,
      the two after it are seconds. */
  function ParseClock(t: string): nat
    requires |t| >= 3
    requires AllDigits(t[..|t| - 3]) && AllDigits(t[|t| - 2..])
  {
    DigitsValue(t[..|t| - 3]) * 60 + DigitsValue(t[|t| - 2..])
  }

  /** One padded field reads back as the number it was made from. */
  lemma PaddedFieldValue(n: nat)
    ensures AllDigits(PadStart2(NatToString(n)))
    ensures DigitsValue(PadStart2(NatToString(n))) == n
  {
    PadStart2Value(NatToString(n));
    NatToStringRoundTrip(n);
  }

  lemma ColonFields(m: string, c: string)
    requires |c| == 2
    ensures var r := m + ":" + c; r[..|r| - 3] == m && r[|r| - 2..] == c
  {
  }

  /** The potential shown on the start panel: the hook's potential rounded
      down, which is what a session started now would pay if the ledger
      stayed as it is. */
  lemma ShownPotentialIsPayout(now: int, u: Account)
    requires Priced(u)
    ensures Potential(u).Floor == Ticks(StartMining(now), u, SessionLength + 1).earnings
  {
    SessionCompletes(now, u);
  }

  datatype View = ProgressView | ClaimView | StartView

  /** Progress while a session runs, the claim panel while unclaimed
      earnings are waiting, otherwise the start panel. */
  function SelectView(s: MiningState): (v: View)
    ensures v == ProgressView <==> s.active
    ensures v == ClaimView <==> !s.active && s.earnings > 0
    ensures v == StartView <==> !s.active && s.earnings <= 0
  {
    if s.active then ProgressView
    else if s.earnings > 0 then ClaimView
    else StartView
  }

  /** The screens follow the session: progress after a start, the claim
      panel once it completes, and the start panel again after the claim. */
  lemma ViewsFollowSession(now: int, u: Account)
    requires Priced(u) && u.rateUpgradeLevel >= 0 && u.boostUpgradeLevel >= 0
    ensures SelectView(StartMining(now)) == ProgressView
    ensures var done := Ticks(StartMining(now), u, SessionLength + 1);
      && SelectView(done) == ClaimView
      && SelectView(Claim(done, u).0) == StartView
  {
    SessionCompletes(now, u);
    PayoutBounds(u);
  }
}
