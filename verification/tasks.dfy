/** The tasks panel: daily, weekly and special task lists, completing a
    task for its reward, and the reset of the daily list. */
module Tasks {
  import opened Common
  import opened Ledger
  import opened Rewards

  /** A task as the panel uses it; titles, descriptions, links and expiry
      texts are display-only and not modelled. */
  datatype Task = Task(id: string, reward: Reward, progress: int, maxProgress: int, completed: bool)

  /** The list a completion names; any other name selects an empty list
      whose setter does nothing. */
  datatype Category = Daily | Weekly | Special | Unknown

  datatype Board = Board(daily: seq<Task>, weekly: seq<Task>, special: seq<Task>)

  const InitialBoard: Board := Board(
    [ Task("daily1", Reward(CoinsReward, 100.0), 0, 1, false),
      Task("daily2", Reward(CoinsReward, 50.0), 0, 1, false),
      Task("daily3", Reward(BoostReward, 5.0), 0, 1, false) ],
    [ Task("weekly1", Reward(TokensReward, 0.05), 2, 5, false),
      Task("weekly2", Reward(RateReward, 0.5), 0, 1, false),
      Task("weekly3", Reward(TimeReward, 15.0), 1200, 5000, false) ],
    [ Task("special1", Reward(TokensReward, 0.1), 0, 1, false),
      Task("special2", Reward(CoinsReward, 500.0), 0, 1, false) ])

  function ListOf(b: Board, c: Category): seq<Task> {
    match c
    case Daily => b.daily
    case Weekly => b.weekly
    case Special => b.special
    case Unknown => []
  }

  /** The board with one list replaced; replacing the unknown list does
      nothing. */
  function WithList(b: Board, c: Category, ts: seq<Task>): (r: Board)
    ensures c != Unknown ==> ListOf(r, c) == ts
    ensures forall d :: d != c ==> ListOf(r, d) == ListOf(b, d)
  {
    match c
    case Daily => b.(daily := ts)
    case Weekly => b.(weekly := ts)
    case Special => b.(special := ts)
    case Unknown => b
  }

  /** `find`: the position of the first task with the identifier. */
  function FindTask(ts: seq<Task>, id: string): (r: Option<nat>)
    ensures r.Some? ==> r.value < |ts| && ts[r.value].id == id
    ensures r.Some? ==> forall j :: 0 <= j < r.value ==> ts[j].id != id
    ensures r.None? ==> forall j :: 0 <= j < |ts| ==> ts[j].id != id
  {
    IndexOf(TaskIds(ts), id)
  }

  /** The tasks' identifiers, in order; the same projection as
      `ReferralMarket.OfferIds` and `ReferralSystem.MilestoneIds` on their records. */
  function TaskIds(ts: seq<Task>): (ids: seq<string>)
    ensures |ids| == |ts| && forall j :: 0 <= j < |ts| ==> ids[j] == ts[j].id
  {
    seq(|ts|, j requires 0 <= j < |ts| => ts[j].id)
  }

  /** Task `i` of list `c` filled up and marked completed. */
  function Finish(b: Board, c: Category, i: nat): Board
    requires i < |ListOf(b, c)|
  {
    var t := ListOf(b, c)[i];
    WithList(b, c, ListOf(b, c)[i := t.(progress := t.maxProgress, completed := true)])
  }

  /** `completeTask` as written: a missing or completed task does nothing,
      and so does a task whose progress has already reached its maximum; a
      task short of its maximum is filled up, marked completed and its
      reward paid through the profile hook, which pays nothing without a
      signed-in session. */
  function CompleteTaskAsWritten(b: Board, u: Account, c: Category, id: string, hasSession: bool): (r: (Board, Account))
    ensures FindTask(ListOf(b, c), id).None? ==> r == (b, u)
    ensures var f := FindTask(ListOf(b, c), id);
      f.Some? ==>
        var t := ListOf(b, c)[f.value];
        (t.completed || t.progress >= t.maxProgress ==> r == (b, u)) &&
        (!t.completed && t.progress < t.maxProgress ==>
          r == (Finish(b, c, f.value), PayReward(u, t.reward, hasSession)))
  {
    match FindTask(ListOf(b, c), id)
    case None => (b, u)
    case Some(i) =>
      var t := ListOf(b, c)[i];
      if t.completed then (b, u)
      else if t.progress < t.maxProgress then (Finish(b, c, i), PayReward(u, t.reward, hasSession))
      else (b, u)
  }

  /** The task's button: disabled once completed, and on the weekly tab also
      while the progress is short of its maximum. */
  predicate ButtonEnabled(c: Category, t: Task) {
    !t.completed && (c == Weekly ==> t.progress >= t.maxProgress)
  }

  /** Pressing the button of the task with identifier `id`. A missing task
      or a disabled button does nothing; off the weekly tab, a task short of
      its maximum fares as under the corrected `Click`. */
  function ClickAsWritten(b: Board, u: Account, c: Category, id: string, hasSession: bool): (r: (Board, Account))
    ensures var f := FindTask(ListOf(b, c), id);
      f.None? || !ButtonEnabled(c, ListOf(b, c)[f.value]) ==> r == (b, u)
    ensures var f := FindTask(ListOf(b, c), id);
      c != Weekly && f.Some? && ListOf(b, c)[f.value].progress < ListOf(b, c)[f.value].maxProgress ==>
        r == Click(b, u, c, id, hasSession)
  {
    match FindTask(ListOf(b, c), id)
    case None => (b, u)
    case Some(i) =>
      if ButtonEnabled(c, ListOf(b, c)[i]) then CompleteTaskAsWritten(b, u, c, id, hasSession) else (b, u)
  }

  /** As written, no weekly task ever pays: its button opens only at full
      progress, where the completion does nothing. */
  lemma WeeklyNeverPays(b: Board, u: Account, id: string, hasSession: bool)
    ensures ClickAsWritten(b, u, Weekly, id, hasSession) == (b, u)
  {
  }

  /** With the weekly task at 5 of 5 the button is enabled yet no token is
      paid; the corrected completion pays the 0.05 tokens. */
  lemma WeeklyCounterexample(u: Account)
    ensures var b := InitialBoard.(weekly := InitialBoard.weekly[0 := InitialBoard.weekly[0].(progress := 5)]);
      && ButtonEnabled(Weekly, b.weekly[0])
      && ClickAsWritten(b, u, Weekly, "weekly1", true).1.tokens == u.tokens
      && Click(b, u, Weekly, "weekly1", true).1.tokens == u.tokens + 0.05
  {
    var b := InitialBoard.(weekly := InitialBoard.weekly[0 := InitialBoard.weekly[0].(progress := 5)]);
    assert FindTask(b.weekly, "weekly1") == Some(0);
  }

  /** The completion as evidently intended: any task not yet completed is
      filled up, marked completed and pays its reward. */
  function CompleteTask(b: Board, u: Account, c: Category, id: string, hasSession: bool): (r: (Board, Account))
    ensures FindTask(ListOf(b, c), id).None? ==> r == (b, u)
    ensures var f := FindTask(ListOf(b, c), id);
      f.Some? ==>
        var t := ListOf(b, c)[f.value];
        (t.completed ==> r == (b, u)) &&
        (!t.completed ==> r == (Finish(b, c, f.value), PayReward(u, t.reward, hasSession)))
  {
    match FindTask(ListOf(b, c), id)
    case None => (b, u)
    case Some(i) =>
      var t := ListOf(b, c)[i];
      if t.completed then (b, u) else (Finish(b, c, i), PayReward(u, t.reward, hasSession))
  }

  /** Pressing the button with the corrected completion: a missing task or
      a disabled button does nothing; an enabled one completes its task and
      pays its reward. */
  function Click(b: Board, u: Account, c: Category, id: string, hasSession: bool): (r: (Board, Account))
    ensures var f := FindTask(ListOf(b, c), id);
      f.None? || !ButtonEnabled(c, ListOf(b, c)[f.value]) ==> r == (b, u)
    ensures var f := FindTask(ListOf(b, c), id);
      f.Some? && ButtonEnabled(c, ListOf(b, c)[f.value]) ==>
        r == (Finish(b, c, f.value), PayReward(u, ListOf(b, c)[f.value].reward, hasSession))
  {
    match FindTask(ListOf(b, c), id)
    case None => (b, u)
    case Some(i) =>
      if ButtonEnabled(c, ListOf(b, c)[i]) then CompleteTask(b, u, c, id, hasSession) else (b, u)
  }

  /** With the corrected completion every enabled button pays its task's
      reward exactly once: the task ends completed at full progress, other
      lists and tasks are untouched, and a second click does nothing. */
  lemma EnabledButtonPaysOnce(b: Board, u: Account, c: Category, id: string, hasSession: bool)
    requires FindTask(ListOf(b, c), id).Some?
    requires ButtonEnabled(c, ListOf(b, c)[FindTask(ListOf(b, c), id).value])
    ensures var i := FindTask(ListOf(b, c), id).value;
      var t := ListOf(b, c)[i];
      var (b1, u1) := Click(b, u, c, id, hasSession);
      && u1 == PayReward(u, t.reward, hasSession)
      && |ListOf(b1, c)| == |ListOf(b, c)|
      && ListOf(b1, c)[i] == t.(progress := t.maxProgress, completed := true)
      && (forall j :: 0 <= j < |ListOf(b, c)| && j != i ==> ListOf(b1, c)[j] == ListOf(b, c)[j])
      && (forall d :: d != c ==> ListOf(b1, d) == ListOf(b, d))
      && Click(b1, u1, c, id, hasSession) == (b1, u1)
  {
    var i := FindTask(ListOf(b, c), id).value;
    var (b1, u1) := Click(b, u, c, id, hasSession);
    assert c != Unknown;
    assert FindTask(ListOf(b1, c), id) == Some(i) by {
      FindKeepsPosition(ListOf(b, c), ListOf(b1, c), id);
    }
  }

  /** Without a signed-in session an enabled button still completes its
      task, but the account is left as it was. */
  lemma NoSessionCompletesUnpaid(b: Board, u: Account, c: Category, id: string)
    requires FindTask(ListOf(b, c), id).Some?
    requires ButtonEnabled(c, ListOf(b, c)[FindTask(ListOf(b, c), id).value])
    ensures var i := FindTask(ListOf(b, c), id).value;
      var (b1, u1) := Click(b, u, c, id, false);
      && u1 == u
      && ListOf(b1, c)[i].completed
      && ListOf(b1, c)[i].progress == ListOf(b, c)[i].maxProgress
  {
    assert c != Unknown;
  }

  /** `find` looks only at identifiers. */
  lemma FindKeepsPosition(ts: seq<Task>, us: seq<Task>, id: string)
    requires |ts| == |us|
    requires forall i :: 0 <= i < |ts| ==> ts[i].id == us[i].id
    ensures FindTask(ts, id) == FindTask(us, id)
  {
    assert TaskIds(ts) == TaskIds(us);
  }

  /** `resetDailyTasks`: every daily task back to no progress and not
      completed, keeping its identity and reward; other lists untouched. */
  function ResetDailyTasks(b: Board): (r: Board)
    ensures r.weekly == b.weekly && r.special == b.special
    ensures |r.daily| == |b.daily|
    ensures forall i :: 0 <= i < |b.daily| ==>
      r.daily[i] == b.daily[i].(progress := 0, completed := false)
  {
    b.(daily := seq(|b.daily|, i requires 0 <= i < |b.daily| =>
      b.daily[i].(progress := 0, completed := false)))
  }

  /** After a reset every daily task with a positive maximum pays again,
      even under the completion as written. */
  lemma ResetReopensDaily(b: Board, u: Account, id: string)
    requires FindTask(ResetDailyTasks(b).daily, id).Some?
    requires ResetDailyTasks(b).daily[FindTask(ResetDailyTasks(b).daily, id).value].maxProgress > 0
    ensures var r := ResetDailyTasks(b);
      var t := r.daily[FindTask(r.daily, id).value];
      ClickAsWritten(r, u, Daily, id, true).1 == ApplyReward(u, t.reward)
  {
  }
}
