/** The account ledger: the one record every feature reads and writes, its
    starting values, the partial-update merge both user-data hooks use, the
    level correction that follows experience, and the sparse payload the
    profile-backed hook persists. */
module Ledger {
  import opened Common
  import opened Progression

  /** One player's account. Coins and tokens are JavaScript numbers and may
      carry fractions; `vipExpiry` is an instant in milliseconds, or null. */
  datatype Account = Account(
    username: string,
    coins: real,
    tokens: real,
    experience: int,
    level: int,
    rateUpgradeLevel: int,
    boostUpgradeLevel: int,
    timeUpgradeLevel: int,
    vipLevel: int,
    vipExpiry: Option<int>)

  /** A partial account (`Partial<UserData>`): `None` is a field the update
      does not mention. The expiry can be explicitly set to null, so it is
      optional twice over. */
  datatype Update = Update(
    username: Option<string>,
    coins: Option<real>,
    tokens: Option<real>,
    experience: Option<int>,
    level: Option<int>,
    rateUpgradeLevel: Option<int>,
    boostUpgradeLevel: Option<int>,
    timeUpgradeLevel: Option<int>,
    vipLevel: Option<int>,
    vipExpiry: Option<Option<int>>)

  const NoUpdate: Update := Update(None, None, None, None, None, None, None, None, None, None)

  /** The account's fields, so that "every other field is unchanged" can be
      said once for all of them. */
  datatype Field =
    | Username | Coins | Tokens | Experience | Level
    | RateUpgrade | BoostUpgrade | TimeUpgrade | Vip | VipExpiry

  datatype Value = Text(s: string) | Amount(a: real) | Count(n: int) | Stamp(t: Option<int>)

  function Get(u: Account, f: Field): Value {
    match f
    case Username => Text(u.username)
    case Coins => Amount(u.coins)
    case Tokens => Amount(u.tokens)
    case Experience => Count(u.experience)
    case Level => Count(u.level)
    case RateUpgrade => Count(u.rateUpgradeLevel)
    case BoostUpgrade => Count(u.boostUpgradeLevel)
    case TimeUpgrade => Count(u.timeUpgradeLevel)
    case Vip => Count(u.vipLevel)
    case VipExpiry => Stamp(u.vipExpiry)
  }

  /** The value an update asks for in field `f`, if it mentions `f`. */
  function Requested(upd: Update, f: Field): Option<Value> {
    match f
    case Username => if upd.username.Some? then Some(Text(upd.username.value)) else None
    case Coins => if upd.coins.Some? then Some(Amount(upd.coins.value)) else None
    case Tokens => if upd.tokens.Some? then Some(Amount(upd.tokens.value)) else None
    case Experience => if upd.experience.Some? then Some(Count(upd.experience.value)) else None
    case Level => if upd.level.Some? then Some(Count(upd.level.value)) else None
    case RateUpgrade =>
      if upd.rateUpgradeLevel.Some? then Some(Count(upd.rateUpgradeLevel.value)) else None
    case BoostUpgrade =>
      if upd.boostUpgradeLevel.Some? then Some(Count(upd.boostUpgradeLevel.value)) else None
    case TimeUpgrade =>
      if upd.timeUpgradeLevel.Some? then Some(Count(upd.timeUpgradeLevel.value)) else None
    case Vip => if upd.vipLevel.Some? then Some(Count(upd.vipLevel.value)) else None
    case VipExpiry => if upd.vipExpiry.Some? then Some(Stamp(upd.vipExpiry.value)) else None
  }

  /** Two accounts that agree on every field are the same account. */
  lemma Extensional(a: Account, b: Account)
    requires forall f :: Get(a, f) == Get(b, f)
    ensures a == b
  {
    assert Get(a, Username) == Get(b, Username);
    assert Get(a, Coins) == Get(b, Coins);
    assert Get(a, Tokens) == Get(b, Tokens);
    assert Get(a, Experience) == Get(b, Experience);
    assert Get(a, Level) == Get(b, Level);
    assert Get(a, RateUpgrade) == Get(b, RateUpgrade);
    assert Get(a, BoostUpgrade) == Get(b, BoostUpgrade);
    assert Get(a, TimeUpgrade) == Get(b, TimeUpgrade);
    assert Get(a, Vip) == Get(b, Vip);
    assert Get(a, VipExpiry) == Get(b, VipExpiry);
  }

  /** `{ ...prev, ...updates }`: every field the update mentions takes the
      update's value, every other field keeps the account's. */
  function Merge(u: Account, upd: Update): (r: Account)
    ensures forall f :: Requested(upd, f).Some? ==> Get(r, f) == Requested(upd, f).value
    ensures forall f :: Requested(upd, f).None? ==> Get(r, f) == Get(u, f)
  {
    Account(
      upd.username.GetOr(u.username),
      upd.coins.GetOr(u.coins),
      upd.tokens.GetOr(u.tokens),
      upd.experience.GetOr(u.experience),
      upd.level.GetOr(u.level),
      upd.rateUpgradeLevel.GetOr(u.rateUpgradeLevel),
      upd.boostUpgradeLevel.GetOr(u.boostUpgradeLevel),
      upd.timeUpgradeLevel.GetOr(u.timeUpgradeLevel),
      upd.vipLevel.GetOr(u.vipLevel),
      upd.vipExpiry.GetOr(u.vipExpiry))
  }

  /** An update that mentions nothing changes nothing, and applying the same
      update twice is the same as applying it once. */
  lemma MergeIdentityAndIdempotence(u: Account, upd: Update)
    ensures Merge(u, NoUpdate) == u
    ensures Merge(Merge(u, upd), upd) == Merge(u, upd)
  {
    Extensional(Merge(u, NoUpdate), u);
    Extensional(Merge(Merge(u, upd), upd), Merge(u, upd));
  }

  // ------------------------------------------------ starting records

  /** The browser-storage hook's starting record. Its record has no name or
      VIP fields; the model gives them the empty name, tier 0 and no expiry. */
  const LocalInitial: Account := Account("", 100.0, 0.5, 50, 1, 0, 0, 0, 0, None)

  /** The profile-backed hook's default record. Its record has no experience
      field; the model gives it zero. */
  const ProfileDefault: Account := Account("", 0.0, 0.0, 0, 1, 0, 0, 0, 0, None)

  /** The default record is a fresh level-1 account: empty balances, no
      upgrades, no VIP tier and no expiry, and its level already agrees with
      its experience. */
  lemma ProfileDefaultIsFresh()
    ensures ProfileDefault.level == 1 && ProfileDefault.level == LevelFor(ProfileDefault.experience)
    ensures ProfileDefault.coins == 0.0 && ProfileDefault.tokens == 0.0
    ensures ProfileDefault.rateUpgradeLevel == 0 && ProfileDefault.boostUpgradeLevel == 0
    ensures ProfileDefault.timeUpgradeLevel == 0
    ensures ProfileDefault.vipLevel == 0 && ProfileDefault.vipExpiry == None
  {
  }

  // ------------------------------------------------ level correction

  /** The level effect: recompute the level from experience and write it,
      but only when it differs from the stored one. */
  function LevelEffect(u: Account): (r: Account)
    ensures r.level == LevelFor(u.experience)
    ensures forall f :: f != Level ==> Get(r, f) == Get(u, f)
    ensures r == u <==> u.level == LevelFor(u.experience)
  {
    var l := LevelFor(u.experience);
    if l != u.level then u.(level := l) else u
  }

  /** Once corrected, the level effect leaves the account alone. */
  lemma LevelEffectSettles(u: Account)
    ensures LevelEffect(LevelEffect(u)) == LevelEffect(u)
  {
  }

  /** The starting record claims level 1 with 50 experience; the level
      effect corrects it to level 2 and touches nothing else. */
  lemma LocalInitialCorrected()
    ensures LocalInitial.level == 1
    ensures LevelEffect(LocalInitial) == LocalInitial.(level := 2)
  {
    assert LevelFor(50) == 2 by {
      assert Config(2).xpMin <= 50 < Config(3).xpMin;
      LevelForIsRange(50, 2);
    }
  }

  // ------------------------------------------------ loading a profile row

  /** A profile row as the table returns it: `None` for a missing or null
      column. A blank expiry is also read as `None`. */
  datatype ProfileRow = ProfileRow(
    username: Option<string>,
    level: Option<int>,
    coins: Option<real>,
    tokens: Option<real>,
    rateUpgradeLevel: Option<int>,
    boostUpgradeLevel: Option<int>,
    timeUpgradeLevel: Option<int>,
    vipLevel: Option<int>,
    vipExpiry: Option<int>)

  /** `value || fallback` for numbers: missing, null and 0 are falsy. */
  function OrCount(o: Option<int>, fallback: int): int {
    if o.None? || o.value == 0 then fallback else o.value
  }

  function OrAmount(o: Option<real>, fallback: real): real {
    if o.None? || o.value == 0.0 then fallback else o.value
  }

  /** `value || fallback` for strings: missing, null and "" are falsy. */
  function OrText(o: Option<string>, fallback: string): string {
    if o.None? || o.value == "" then fallback else o.value
  }

  /** The record built from a loaded profile row. */
  function FromProfileRow(row: ProfileRow): (u: Account)
    ensures u.username == if row.username.Some? && row.username.value != "" then row.username.value else "User"
    ensures u.level == if row.level.Some? && row.level.value != 0 then row.level.value else 1
    ensures u.level != 0 && u.username != ""
    ensures u.coins == row.coins.GetOr(0.0) && u.tokens == row.tokens.GetOr(0.0)
    ensures u.rateUpgradeLevel == row.rateUpgradeLevel.GetOr(0)
    ensures u.boostUpgradeLevel == row.boostUpgradeLevel.GetOr(0)
    ensures u.timeUpgradeLevel == row.timeUpgradeLevel.GetOr(0)
    ensures u.vipLevel == row.vipLevel.GetOr(0)
    ensures u.vipExpiry == row.vipExpiry
    ensures forall f :: f !in {Username, Level, Experience} ==> Get(u, f) == RowValue(row, f)
  {
    Account(
      OrText(row.username, "User"),
      OrAmount(row.coins, 0.0),
      OrAmount(row.tokens, 0.0),
      0,
      OrCount(row.level, 1),
      OrCount(row.rateUpgradeLevel, 0),
      OrCount(row.boostUpgradeLevel, 0),
      OrCount(row.timeUpgradeLevel, 0),
      OrCount(row.vipLevel, 0),
      row.vipExpiry)
  }

  /** The value a row holds for a field, with absent columns as the default. */
  function RowValue(row: ProfileRow, f: Field): Value {
    match f
    case Username => Text(row.username.GetOr(""))
    case Coins => Amount(row.coins.GetOr(0.0))
    case Tokens => Amount(row.tokens.GetOr(0.0))
    case Experience => Count(0)
    case Level => Count(row.level.GetOr(1))
    case RateUpgrade => Count(row.rateUpgradeLevel.GetOr(0))
    case BoostUpgrade => Count(row.boostUpgradeLevel.GetOr(0))
    case TimeUpgrade => Count(row.timeUpgradeLevel.GetOr(0))
    case Vip => Count(row.vipLevel.GetOr(0))
    case VipExpiry => Stamp(row.vipExpiry)
  }

  /** A row with every column present and non-zero loads verbatim. */
  lemma FullRowLoadsVerbatim(row: ProfileRow)
    requires row.username.Some? && row.username.value != ""
    requires row.level.Some? && row.level.value != 0
    requires row.coins.Some? && row.coins.value != 0.0
    requires row.tokens.Some? && row.tokens.value != 0.0
    requires row.rateUpgradeLevel.Some? && row.rateUpgradeLevel.value != 0
    requires row.boostUpgradeLevel.Some? && row.boostUpgradeLevel.value != 0
    requires row.timeUpgradeLevel.Some? && row.timeUpgradeLevel.value != 0
    requires row.vipLevel.Some? && row.vipLevel.value != 0
    ensures forall f :: Get(FromProfileRow(row), f) == RowValue(row, f)
  {
  }

  // ------------------------------------------------ persisting an update

  /** A column value sent to the profile table. */
  datatype DbValue = DbText(s: string) | DbNumber(x: real) | DbNull | DbInstant(t: int)

  function ToDb(v: Value): DbValue {
    match v
    case Text(s) => DbText(s)
    case Amount(a) => DbNumber(a)
    case Count(n) => DbNumber(n as real)
    case Stamp(t) => if t.Some? then DbInstant(t.value) else DbNull
  }

  /** The fields the profile table stores, in the order the hook lists them;
      experience is not among them. */
  const PersistedFields: seq<Field> :=
    [Username, Level, Coins, Tokens, RateUpgrade, BoostUpgrade, TimeUpgrade, Vip, VipExpiry]

  /** The snake_case column name of a persisted field. */
  function Column(f: Field): string {
    match f
    case Username => "username"
    case Level => "level"
    case Coins => "coins"
    case Tokens => "tokens"
    case RateUpgrade => "rate_upgrade_level"
    case BoostUpgrade => "boost_upgrade_level"
    case TimeUpgrade => "time_upgrade_level"
    case Vip => "vip_level"
    case VipExpiry => "vip_expiry_date"
    case Experience => "experience"
  }

  /** What the `dbUpdates` object holds for a persisted field: the update's
      value in column form, or `None` standing for `undefined`. */
  function Entry(upd: Update, f: Field): Option<DbValue> {
    if Requested(upd, f).Some? then Some(ToDb(Requested(upd, f).value)) else None
  }

  /** The `dbUpdates` object: every persisted column with its entry. */
  function DbUpdates(upd: Update): (cols: seq<(string, Option<DbValue>)>)
    ensures |cols| == |PersistedFields|
    ensures forall i :: 0 <= i < |cols| ==> cols[i] == (Column(PersistedFields[i]), Entry(upd, PersistedFields[i]))
  {
    seq(|PersistedFields|, i requires 0 <= i < |PersistedFields| =>
      (Column(PersistedFields[i]), Entry(upd, PersistedFields[i])))
  }

  /** Filter out the `undefined` entries and fold the rest into one object,
      left to right, as the `filter` and `reduce` of the hook do. */
  function Defined(cols: seq<(string, Option<DbValue>)>): map<string, DbValue> {
    if |cols| == 0 then map[]
    else
      var m := Defined(cols[..|cols| - 1]);
      var last := cols[|cols| - 1];
      if last.1.Some? then m[last.0 := last.1.value] else m
  }

  /** Entry `i` is the last one for its key. */
  predicate LastFor(cols: seq<(string, Option<DbValue>)>, i: int)
    requires 0 <= i < |cols|
  {
    forall j :: i < j < |cols| ==> cols[j].0 != cols[i].0
  }

  /** The folded object has a key exactly when some entry defines it, and
      the value under a key is that of the key's last entry. */
  lemma {:induction false} DefinedSpec(cols: seq<(string, Option<DbValue>)>)
    ensures forall k :: k in Defined(cols) <==>
      exists i :: 0 <= i < |cols| && cols[i].0 == k && cols[i].1.Some?
    ensures forall i :: 0 <= i < |cols| && cols[i].1.Some? && LastFor(cols, i) ==>
      Defined(cols)[cols[i].0] == cols[i].1.value
  {
    if |cols| > 0 {
      var n := |cols| - 1;
      var p := cols[..n];
      DefinedSpec(p);
      var m := Defined(cols);
      forall k
        ensures k in m <==> exists i :: 0 <= i < |cols| && cols[i].0 == k && cols[i].1.Some?
      {
        if k in m {
          if !(cols[n].0 == k && cols[n].1.Some?) {
            assert k in Defined(p);
            var i :| 0 <= i < |p| && p[i].0 == k && p[i].1.Some?;
            assert cols[i] == p[i];
          }
        }
        if exists i :: 0 <= i < |cols| && cols[i].0 == k && cols[i].1.Some? {
          var i :| 0 <= i < |cols| && cols[i].0 == k && cols[i].1.Some?;
          if i < n {
            assert p[i] == cols[i];
          }
        }
      }
      forall i | 0 <= i < |cols| && cols[i].1.Some? && LastFor(cols, i)
        ensures m[cols[i].0] == cols[i].1.value
      {
        if i < n {
          assert p[i] == cols[i];
          assert LastFor(p, i);
        }
      }
    }
  }

  /** The profile-backed `updateUserData`. Without a signed-in session it
      does nothing and sends nothing. Otherwise the record becomes the merge
      and the payload sent to the table is the update's defined fields under
      their column names. */
  function UpdateProfile(u: Account, upd: Update, hasSession: bool): (r: (Account, Option<map<string, DbValue>>))
    ensures !hasSession ==> r.0 == u && r.1.None?
    ensures hasSession ==> r.0 == Merge(u, upd) && r.1 == Some(Defined(DbUpdates(upd)))
  {
    if !hasSession then (u, None)
    else (Merge(u, upd), Some(Defined(DbUpdates(upd))))
  }

  /** The persisted payload names exactly the persisted fields the update
      defines, under their column names, and carries their values. */
  lemma PayloadIsDefinedFields(upd: Update)
    ensures var p := Defined(DbUpdates(upd));
      && (forall i :: 0 <= i < |PersistedFields| ==>
            (Column(PersistedFields[i]) in p <==> Requested(upd, PersistedFields[i]).Some?))
      && (forall i :: 0 <= i < |PersistedFields| && Requested(upd, PersistedFields[i]).Some? ==>
            p[Column(PersistedFields[i])] == ToDb(Requested(upd, PersistedFields[i]).value))
      && (forall k :: k in p ==> exists i :: 0 <= i < |PersistedFields| && Column(PersistedFields[i]) == k)
  {
    var cols := DbUpdates(upd);
    var p := Defined(cols);
    DefinedSpec(cols);
    forall i | 0 <= i < |PersistedFields|
      ensures Column(PersistedFields[i]) in p <==> Requested(upd, PersistedFields[i]).Some?
      ensures Requested(upd, PersistedFields[i]).Some? ==>
        p[Column(PersistedFields[i])] == ToDb(Requested(upd, PersistedFields[i]).value)
    {
      ColumnsDistinct(i);
      assert LastFor(cols, i);
    }
  }

  /** The payload never holds an `undefined` value and never carries the
      experience: a null is sent only for an expiry explicitly set to null. */
  lemma PayloadHasNoUndefined(upd: Update)
    ensures var p := Defined(DbUpdates(upd));
      && "experience" !in p
      && (forall k :: k in p && p[k] == DbNull ==> k == "vip_expiry_date" && upd.vipExpiry == Some(None))
  {
    var cols := DbUpdates(upd);
    var p := Defined(cols);
    DefinedSpec(cols);
    if "experience" in p {
      var i :| 0 <= i < |cols| && cols[i].0 == "experience" && cols[i].1.Some?;
      NotExperienceColumn(i);
    }
    forall k | k in p && p[k] == DbNull
      ensures k == "vip_expiry_date" && upd.vipExpiry == Some(None)
    {
      var i :| 0 <= i < |cols| && cols[i].0 == k && cols[i].1.Some?;
      ColumnsDistinct(i);
      assert LastFor(cols, i);
      assert p[k] == Entry(upd, PersistedFields[i]).value;
      NullOnlyForExpiry(upd, PersistedFields[i]);
    }
  }

  lemma NotExperienceColumn(i: int)
    requires 0 <= i < |PersistedFields|
    ensures Column(PersistedFields[i]) != "experience"
  {
  }

  lemma NullOnlyForExpiry(upd: Update, f: Field)
    requires Entry(upd, f) == Some(DbNull)
    ensures f == VipExpiry && upd.vipExpiry == Some(None)
  {
    match f
    case VipExpiry =>
    case Username =>
    case Coins =>
    case Tokens =>
    case Experience =>
    case Level =>
    case RateUpgrade =>
    case BoostUpgrade =>
    case TimeUpgrade =>
    case Vip =>
  }

  /** No two persisted fields share a column. */
  lemma ColumnsDistinct(i: int)
    requires 0 <= i < |PersistedFields|
    ensures forall j :: 0 <= j < |PersistedFields| && j != i ==> Column(PersistedFields[j]) != Column(PersistedFields[i])
  {
  }
}
