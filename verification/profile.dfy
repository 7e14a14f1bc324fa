/** The profile dialog's derived texts: the avatar initials and the VIP
    tier's name and benefit figures. */
module Profile {
  import opened Common
  import opened Text
  import Vip

  /** The first character of every non-empty part, in order
      (`parts.map(p => p[0]).join("")`, where an empty part's missing first
      character joins as nothing). */
  function Heads(parts: seq<string>): seq<char>
  {
    if |parts| == 0 then []
    else (if |parts[0]| > 0 then [parts[0][0]] else []) + Heads(parts[1..])
  }

  /** An independent reading of the same thing: the characters of `s` that
      are not spaces and follow a space or the start (`afterSpace` says
      whether the character before `s` was a space). */
  function WordStarts(s: string, afterSpace: bool): seq<char>
  {
    if |s| == 0 then []
    else (if s[0] != ' ' && afterSpace then [s[0]] else []) + WordStarts(s[1..], s[0] == ' ')
  }

  /** Splitting on spaces and taking the parts' first characters picks out
      exactly the characters that start a word; the parts after the first
      are the words after a space. */
  lemma {:induction false} HeadsAreWordStarts(s: string)
    ensures Heads(Split(s, ' ')) == WordStarts(s, true)
    ensures Heads(Split(s, ' ')[1..]) == WordStarts(s, false)
    decreases |s|
  {
    if |s| == 0 {
      assert Split(s, ' ') == [""];
    } else if s[0] == ' ' {
      HeadsAreWordStarts(s[1..]);
      var rest := Split(s[1..], ' ');
      assert Split(s, ' ') == [""] + rest;
      assert ([""] + rest)[1..] == rest;
    } else {
      HeadsAreWordStarts(s[1..]);
      var rest := Split(s[1..], ' ');
      var first := [s[0]] + rest[0];
      assert Split(s, ' ') == [first] + rest[1..];
      assert ([first] + rest[1..])[1..] == rest[1..];
    }
  }

  /** `getInitials`: "?" for a missing or empty name, otherwise the first
      character of every space-separated part, upper-cased. */
  function GetInitials(name: Option<string>): (r: string)
    ensures name.None? || name.value == "" ==> r == "?"
    ensures name.Some? && name.value != "" ==> r == ToUpper(WordStarts(name.value, true))
  {
    match name
    case None => "?"
    case Some(n) =>
      if n == "" then "?"
      else
        HeadsAreWordStarts(n);
        ToUpper(Heads(Split(n, ' ')))
  }

  /** The initials of a two-word name. */
  lemma TwoWordInitials()
    ensures GetInitials(Some("crypto fan")) == "CF"
  {
    assert "crypto fan" == "crypto" + " " + "fan";
    TwoWords("crypto", "fan");
    assert ToUpper("cf") == "CF";
  }

  /** Two runs of letters joined by one space start exactly two words. */
  lemma TwoWords(a: string, b: string)
    requires |a| > 0 && forall i :: 0 <= i < |a| ==> a[i] != ' '
    requires |b| > 0 && forall i :: 0 <= i < |b| ==> b[i] != ' '
    ensures WordStarts(a + " " + b, true) == [a[0], b[0]]
  {
    var s := a + " " + b;
    assert s[0] == a[0];
    if |a| > 1 {
      assert s[1..] == a[1..] + (" " + b);
      NoStartsWithin(a[1..], " " + b);
    } else {
      assert s[1..] == " " + b;
    }
    assert (" " + b)[1..] == b;
    CountWordStarts(b[1..]);
  }

  /** A name of spaces only has no initials; an empty name shows "?". */
  lemma BlankInitials()
    ensures GetInitials(Some("  ")) == ""
    ensures GetInitials(Some("")) == "?"
  {
    assert WordStarts("  ", true) == "" by {
      assert "  "[1..] == " ";
      assert " "[1..] == "";
    }
  }

  /** A run of letters after a letter starts no word. */
  lemma {:induction false} CountWordStarts(s: string)
    requires forall i :: 0 <= i < |s| ==> s[i] != ' '
    ensures WordStarts(s, false) == []
    decreases |s|
  {
    if |s| > 0 {
      CountWordStarts(s[1..]);
    }
  }

  /** Word starts of a run of letters followed by more text: only the text
      after the run can contribute, read as following a letter. */
  lemma {:induction false} NoStartsWithin(s: string, t: string)
    requires |s| > 0 && forall i :: 0 <= i < |s| ==> s[i] != ' '
    ensures WordStarts(s + t, false) == WordStarts(t, false)
    decreases |s|
  {
    assert (s + t)[1..] == s[1..] + t;
    if |s| > 1 {
      NoStartsWithin(s[1..], t);
    }
  }

  // ------------------------------------------------------------ VIP labels

  /** `getVipName`: the plan names for tiers 1..3, "Free User" otherwise. */
  function VipName(level: int): (name: string)
    ensures 1 <= level <= 3 ==> name == Vip.FindPlan(level).value.name
    ensures !(1 <= level <= 3) ==> name == "Free User"
  {
    match level
    case 1 => "Whale Rookie"
    case 2 => "Whale Elite"
    case 3 => "Whale Legend"
    case _ => "Free User"
  }

  /** The boost percentage the profile credits to a VIP tier: 5, 10, or 15
      for any other positive tier. */
  function VipBoostLabel(level: int): (pct: int)
    ensures 1 <= level <= 3 ==> pct == 5 * level
    ensures level > 3 ==> pct == 15
  {
    if level == 1 then 5 else if level == 2 then 10 else 15
  }

  /** The extra friend slots the profile credits to a VIP tier: 1, 3, or 5
      for any other positive tier. */
  function FriendSlotLabel(level: int): (slots: int)
    ensures 1 <= level <= 3 ==> slots == 2 * level - 1
    ensures level > 3 ==> slots == 5
  {
    if level == 1 then 1 else if level == 2 then 3 else 5
  }

  /** Both figures grow with the tier and top out at the third tier. */
  lemma LabelsMonotone(a: int, b: int)
    requires 1 <= a <= b
    ensures VipBoostLabel(a) <= VipBoostLabel(b) <= 15
    ensures FriendSlotLabel(a) <= FriendSlotLabel(b) <= 5
  {
  }
}
