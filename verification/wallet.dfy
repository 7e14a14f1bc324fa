/** The wallet panel's coin-to-token swap at the fixed rate of 10000 coins
    for 0.15 tokens, with its digits-only amount field. */
module Wallet {
  import opened Common
  import opened Text
  import opened Ledger

  /** Tokens per coin. */
  const SwapRate: real := 0.15 / 10000.0

  /** The amount field accepts an edit only when the new text is all
      digits (the empty text included); otherwise it keeps its text. */
  function OnAmountChange(current: string, typed: string): (r: string)
    ensures AllDigits(typed) ==> r == typed
    ensures !AllDigits(typed) ==> r == current
  {
    if AllDigits(typed) then typed else current
  }

  /** Starting from the empty field, any sequence of edits leaves the field
      all digits. */
  lemma {:induction false} FieldStaysDigits(current: string, edits: seq<string>)
    requires AllDigits(current)
    ensures AllDigits(ApplyEdits(current, edits))
    decreases |edits|
  {
    if |edits| > 0 {
      FieldStaysDigits(OnAmountChange(current, edits[0]), edits[1..]);
    }
  }

  function ApplyEdits(current: string, edits: seq<string>): string
    decreases |edits|
  {
    if |edits| == 0 then current else ApplyEdits(OnAmountChange(current, edits[0]), edits[1..])
  }

  /** `Number.parseInt` on a digits-only text: no number for the empty text,
      the decimal value otherwise. */
  function ParseAmount(text: string): (r: Option<nat>)
    requires AllDigits(text)
    ensures r.None? <==> text == ""
    ensures r.Some? ==> r.value == DigitsValue(text)
  {
    if text == "" then None else Some(DigitsValue(text))
  }

  /** `calculateTokens`. */
  function CalculateTokens(coins: real): (t: real)
    ensures t * 10000.0 == coins * 0.15
  {
    coins * SwapRate
  }

  /** The swap button: a positive amount no larger than the coin balance. */
  predicate SwapEnabled(text: string, coins: real)
    requires AllDigits(text)
  {
    var n := ParseAmount(text);
    n.Some? && n.value > 0 && n.value as real <= coins
  }

  /** `handleSwap`: with no amount, a zero amount or more than the balance
      nothing happens; otherwise the coins are exchanged for tokens at the
      swap rate and the field is cleared. */
  function HandleSwap(text: string, u: Account): (r: (string, Account))
    requires AllDigits(text)
    ensures !SwapEnabled(text, u.coins) ==> r == (text, u)
    ensures SwapEnabled(text, u.coins) ==>
      var n := DigitsValue(text) as real;
      && r.0 == ""
      && r.1.coins == u.coins - n
      && r.1.tokens == u.tokens + CalculateTokens(n)
      && (forall f :: f != Coins && f != Tokens ==> Get(r.1, f) == Get(u, f))
  {
    match ParseAmount(text)
    case None => (text, u)
    case Some(n) =>
      if n <= 0 then (text, u)
      else if n as real > u.coins then (text, u)
      else
        ("", Merge(u, NoUpdate.(coins := Some(u.coins - n as real),
                                tokens := Some(u.tokens + CalculateTokens(n as real)))))
  }

  /** A swap neither creates nor destroys value at the swap rate, never
      takes the coin balance below zero, and changes the account exactly
      when the button is enabled. */
  lemma SwapConservesValue(text: string, u: Account)
    requires AllDigits(text)
    ensures var (_, v) := HandleSwap(text, u);
      && v.coins * SwapRate + v.tokens == u.coins * SwapRate + u.tokens
      && (SwapEnabled(text, u.coins) ==> v.coins >= 0.0 && v.tokens > u.tokens)
      && (v != u <==> SwapEnabled(text, u.coins))
  {
  }

  /** Ten thousand coins buy 0.15 tokens. */
  lemma SwapExample(u: Account)
    requires u.coins == 12000.0 && u.tokens == 0.0
    ensures HandleSwap("10000", u).1.coins == 2000.0
    ensures HandleSwap("10000", u).1.tokens == 0.15
  {
    assert "10000"[..4] == "1000" && "1000"[..3] == "100" && "100"[..2] == "10" && "10"[..1] == "1";
    assert DigitsValue("1") == 1;
    assert DigitsValue("10") == 10;
    assert DigitsValue("100") == 100;
    assert DigitsValue("1000") == 1000;
    assert DigitsValue("10000") == 10000;
  }
}
