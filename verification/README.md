# WhaleBux game core in Dafny

A functional model of the WhaleBux mining game's client-side core:
- the level table and the three upgrade catalogs;
- the player ledger, both as the browser-storage hook keeps it and as the profile-table hook persists it;
- the mining session: start, the per-second countdown, completion, restore after a reload, and the claim;
- the dashboard's clock text and panel choice;
- the statistics panel's derived figures;
- upgrade purchases;
- the 28-day login calendar;
- referral milestones and the referral offer market;
- the task board;
- the coin-to-token swap;
- VIP membership;
- the profile's initials and VIP labels.

Each React component's state is a Dafny datatype, and each handler is a pure function from the old state (and the ledger) to the new one.

Representation choices:
- Coins and tokens are `real`s, since JavaScript numbers hold fractional token amounts and numeric form input. Experience, levels and upgrade tiers are `int`s.
- Calendar dates are integer day numbers and instants are integer milliseconds. The clock is a parameter of every operation that reads it.
- A JavaScript `null`/`undefined` field becomes `Option`.

One module per source component:

| module | file | models |
|---|---|---|
| `Common` | common.dfy | `Option`, the search by identifier, the subsequence relation, `Min`, `Max`, `Abs` |
| `Text` | text.dfy | decimal digits, `toString`, `padStart(2, "0")`, `split`, `toUpperCase` |
| `Progression` | config.dfy | `LEVEL_CONFIG`, the three upgrade catalogs, the level derived from experience |
| `Ledger` | ledger.dfy | the player record, `{ ...prev, ...updates }`, both hooks' initial records, profile loading and the persisted payload |
| `Rewards` | rewards.dfy | the reward-type switch shared by tasks and the login calendar |
| `Mining` | mining.dfy | the mining-state hook |
| `Dashboard` | dashboard.dfy | `formatTime`, the shown potential, the three panels |
| `Stats` | stats.dfy | the statistics panel |
| `Upgrades` | upgrades.dfy | `purchaseUpgrade` and the upgrade cards |
| `DailyLogin` | daily_login.dfy | the login calendar |
| `ReferralSystem` | referral_system.dfy | referral milestones |
| `Tasks` | tasks.dfy | the task board |
| `ReferralMarket` | referral_market.dfy | offers, accepted tasks, cancellation |
| `Wallet` | wallet.dfy | the swap panel |
| `Vip` | vip.dfy | VIP plans, purchase, days remaining |
| `Profile` | profile.dfy | initials and VIP labels |

The model follows what the code does, also where the game's own texts promise otherwise:
- A mining session lasts a fixed 120 seconds whatever the level and time upgrades. The hook marks this as a value for testing and names the level-based duration as the production one (whalebux-mining-app_v4/hooks/use-mining-state.tsx:47-49); only the statistics panel computes that duration.
- The payout is computed from the ledger at the moment the session completes, not frozen at its start.
- VIP tiers give no mining bonus, although the plan texts list one (components/vip-membership.tsx:55-104); the bonuses appear only as labels in the profile.
- Upgrade purchases do not check that the previous tier is owned; only the card buttons do.

## Model

| member | source | states |
|---|---|---|
| Progression.LevelKeys | lib/config.ts:33-106 | Levels exist for 1..9, level 1 starts at 0 experience, and the minimum experience rises strictly from level to level |
| Progression.RangesTile | lib/config.ts:33-106 | Each finite range ends one below the next level's minimum, and only level 9 is unbounded, so the ranges tile the naturals |
| Progression.LevelEconomics | lib/config.ts:33-106 | The mining duration is the level plus one hour; the listed earnings equal base rate times duration; rate and boost grow strictly with the level |
| Progression.RateCatalogWellFormed | lib/config.ts:109-119 | The rate catalog has tiers 1..9 in order, tiers 1..5 priced only in coins and 6..9 only in tokens, prices strictly rising within each currency |
| Progression.BoostCatalogWellFormed | lib/config.ts:122-132 | The boost catalog has the same shape |
| Progression.TimeCatalogWellFormed | lib/config.ts:135-145 | The time catalog has the same shape |
| Progression.TimeTiersThirty | lib/config.ts:135-145 | Every time tier takes off 30 minutes |
| Progression.ScanDown | whalebux-mining-app_v4/hooks/use-user-data.tsx:53-60 | The downward scan returns a level whose minimum the experience reaches, with every higher scanned level out of reach, or 1 when none is reached |
| Progression.LevelFor | whalebux-mining-app_v4/hooks/use-user-data.tsx:52-60 | The derived level is a real level; non-negative experience reaches its minimum and no higher level's; negative experience gives level 1 |
| Progression.LevelForIsRange | whalebux-mining-app_v4/hooks/use-user-data.tsx:52-60 | For non-negative experience the derived level is `l` exactly when the experience lies in `l`'s range |
| Progression.LevelForMonotone | whalebux-mining-app_v4/hooks/use-user-data.tsx:52-60 | More experience never gives a lower level |
| Ledger.Merge | whalebux-mining-app_v4/hooks/use-user-data.tsx:67-69 | Every field the update mentions takes its value, and every other field keeps the old one |
| Ledger.MergeIdentityAndIdempotence | whalebux-mining-app_v4/hooks/use-user-data.tsx:67-69 | An empty update changes nothing, and applying an update twice equals applying it once |
| Ledger.ProfileDefaultIsFresh | hooks/use-user-data.tsx:34-45 | The profile hook's default record is level 1 with no balances, no upgrades and no VIP tier or expiry |
| Ledger.LevelEffect | whalebux-mining-app_v4/hooks/use-user-data.tsx:52-65 | The level effect sets the level to the one the experience earns, touches nothing else, and changes the record exactly when the stored level is wrong |
| Ledger.LevelEffectSettles | whalebux-mining-app_v4/hooks/use-user-data.tsx:52-65 | A second run of the level effect changes nothing |
| Ledger.LocalInitialCorrected | whalebux-mining-app_v4/hooks/use-user-data.tsx:24-65 | The starting record says level 1 with 50 experience, and the level effect moves it to level 2 |
| Ledger.FromProfileRow | hooks/use-user-data.tsx:60-72 | Loading a row keeps a present non-empty name or else uses "User", keeps a present non-zero level or else uses 1, keeps every present balance, upgrade level and VIP tier (a zero stays zero) and uses 0 for a missing one, and copies the expiry |
| Ledger.FullRowLoadsVerbatim | hooks/use-user-data.tsx:60-72 | A row with every column present and non-zero loads field for field |
| Ledger.DbUpdates | hooks/use-user-data.tsx:87-98 | The column object lists every persisted field once, under its snake_case column, with the update's entry for it |
| Ledger.DefinedSpec | hooks/use-user-data.tsx:100-102 | The filtered fold has a key exactly when some entry defines it, and holds the last defined value for each key |
| Ledger.UpdateProfile | hooks/use-user-data.tsx:81-85 | Without a session nothing changes and nothing is sent; with one, the local record is merged and the payload sent is exactly the update's defined fields under their column names |
| Ledger.PayloadIsDefinedFields | hooks/use-user-data.tsx:87-102 | The payload has a persisted field's column exactly when the update mentions that field, and holds the update's value there |
| Ledger.PayloadHasNoUndefined | hooks/use-user-data.tsx:99-102 | The payload has no key for experience; only the expiry column can hold null, and only when the update clears it |
| Ledger.NotExperienceColumn | hooks/use-user-data.tsx:87-98 | No persisted column is the experience column |
| Ledger.NullOnlyForExpiry | hooks/use-user-data.tsx:87-102 | A field's entry is null only for the expiry, and only when the update clears it |
| Ledger.ColumnsDistinct | hooks/use-user-data.tsx:87-98 | No two persisted fields share a column |
| Rewards.ApplyReward | components/tasks-panel.tsx:169-184 | Coin and token rewards add their amount; boost, rate and time rewards raise that upgrade level by one; all other fields stay |
| Rewards.UpgradeAmountIgnored | components/tasks-panel.tsx:176-182 | For upgrade rewards the amount makes no difference |
| Rewards.RewardKeepsBalances | components/tasks-panel.tsx:172-182 | A non-negative reward never lowers a balance or an upgrade level |
| Rewards.RewardExceedsCatalog | components/tasks-panel.tsx:178-179 | A rate reward raises the tier past the catalog's last tier 9 |
| Rewards.PayReward | hooks/use-user-data.tsx:81-85 | A reward is paid through the profile hook: with a session the account gets the reward, without one it stays as it was |
| Mining.PayoutInputs | whalebux-mining-app_v4/hooks/use-mining-state.tsx:41-64 | Only the level and the rate and boost upgrade levels decide the potential and the payout |
| Mining.EarningsPerHour | whalebux-mining-app_v4/hooks/use-mining-state.tsx:61-64 | The rate is per hour: an hour without boost earns exactly the rate, and a non-negative rate and time with a boost of at least -100 % never earn a negative amount |
| Mining.PotentialForm | whalebux-mining-app_v4/hooks/use-mining-state.tsx:41-64 | A session's potential is its rate times two hours times the boost factor `1 + boost/100` |
| Mining.Payout | whalebux-mining-app_v4/hooks/use-mining-state.tsx:61-64 | The payout is the whole part of the potential: at most the potential and within one below it |
| Mining.PayoutBounds | whalebux-mining-app_v4/hooks/use-mining-state.tsx:61-64 | The payout is the potential rounded down, and a session pays at least 2 coins |
| Mining.PayoutMonotone | whalebux-mining-app_v4/hooks/use-mining-state.tsx:51-64 | Raising the rate or boost upgrade level never lowers the potential or the payout |
| Mining.StartMining | whalebux-mining-app_v4/hooks/use-mining-state.tsx:145-157 | A new session is active with 0 progress and 0 earnings, 120 seconds left, and an end time 120 000 ms after its start |
| Mining.Tick | whalebux-mining-app_v4/hooks/use-mining-state.tsx:115-143 | A running tick removes one second and sets the progress from what is left; at zero it ends the session with the floored potential; an inactive session stays unchanged; timestamps are never changed |
| Mining.Countdown | whalebux-mining-app_v4/hooks/use-mining-state.tsx:118-129 | After `k` ticks a new session has `120 - k` seconds left, is still active and shows the matching progress |
| Mining.SessionCompletes | whalebux-mining-app_v4/hooks/use-mining-state.tsx:130-138 | One tick after the countdown reaches zero the session is inactive, at 100 %, and holds the payout |
| Mining.PayoutReadAtCompletion | whalebux-mining-app_v4/hooks/use-mining-state.tsx:130-138 | A rate upgrade bought during a session raises that session's payout from 2 to 4 |
| Mining.RoundSeconds | whalebux-mining-app_v4/hooks/use-mining-state.tsx:78 | The rounded seconds are within half a second of the milliseconds |
| Mining.ElapsedShare | whalebux-mining-app_v4/hooks/use-mining-state.tsx:79-81 | The share times the window's length is the elapsed time times 100, so the share is the elapsed percentage; within the window it lies in [0, 100) |
| Mining.Restore | whalebux-mining-app_v4/hooks/use-mining-state.tsx:67-107 | A record that is not running is restored as is. A running one before its end keeps every field but the seconds left, which are the rounded remaining time, and the progress, which is the elapsed percentage of the window. One past its end is completed with the payout of the ledger handed in |
| Mining.RestoreAgreesWithTicks | whalebux-mining-app_v4/hooks/use-mining-state.tsx:67-143 | Corrected, paying from the ledger the countdown would use: a session reloaded `k` whole seconds after its start shows exactly what `k` ticks show, and one reloaded at or after its end shows exactly what the completing tick leaves |
| Mining.RestoreAsWritten | whalebux-mining-app_v4/hooks/use-mining-state.tsx:67-107 | As written, a session found completed is ended with 0 seconds left, 100 % progress and 2 coins, the starting record's payout, keeping its timestamps; every other case is as in `Restore` |
| Mining.CompletedPaysUnupgraded | whalebux-mining-app_v4/hooks/use-mining-state.tsx:88-98 | A session found completed pays 2 coins when the ledger handed in is level 1 with no rate or boost upgrade |
| Mining.RestoreAsWrittenIgnoresLedger | whalebux-mining-app_v4/hooks/use-mining-state.tsx:67-143 | For any ledger, a session reloaded at its end pays 2 as written, while the countdown and the corrected restore pay that ledger's payout, which is 4 at level 1 with one rate upgrade |
| Mining.Claim | whalebux-mining-app_v4/hooks/use-mining-state.tsx:159-173 | A claim adds the earnings to both coins and experience, changes nothing else, and leaves no session |
| Mining.SessionLifecycle | whalebux-mining-app_v4/hooks/use-mining-state.tsx:145-173 | Start, countdown, completion and claim add the floored potential to coins and experience and end with no session; a second claim adds nothing |
| Dashboard.FormatTime | components/mining-dashboard.tsx:26-30 | The clock text is digits, a colon and two digits; the part before the colon reads back as the whole minutes and the part after as the leftover seconds; the text is exactly five characters long below 100 minutes; reading the text back gives the seconds it was made from |
| Dashboard.PaddedFieldValue | components/mining-dashboard.tsx:29 | A padded field is all digits and reads back as its number |
| Dashboard.ShownPotentialIsPayout | components/mining-dashboard.tsx:23 | The potential shown before a start equals what the completed session pays, if the ledger does not change |
| Dashboard.SelectView | components/mining-dashboard.tsx:63-144 | Progress is shown exactly while the session is active, the claim panel exactly while inactive with positive earnings, the start panel otherwise |
| Dashboard.ViewsFollowSession | components/mining-dashboard.tsx:63-144 | After a start the progress panel shows; after completion the claim panel; after the claim the start panel |
| Stats.Duration | whalebux-mining-app_v4/components/stats-panel.tsx:18-20 | The panel's duration is the level's hours in minutes, less 30 per time upgrade, floored at 30 minutes |
| Stats.PanelPotential | whalebux-mining-app_v4/components/stats-panel.tsx:17-31 | The panel's potential times the session's 120 equals the session's potential times the panel's duration |
| Stats.EarningsScale | whalebux-mining-app_v4/components/stats-panel.tsx:31 | Potential earnings scale linearly with the duration |
| Stats.PanelVersusSession | whalebux-mining-app_v4/components/stats-panel.tsx:17-31 | The panel's potential is the session's potential scaled by the panel's duration over the session's 120 minutes. They agree exactly when the panel's duration is 120 minutes |
| Stats.PanelExamples | whalebux-mining-app_v4/components/stats-panel.tsx:17-31 | At level 2 with no upgrades the panel promises 1.5 times what a session pays; at level 1 the two agree |
| Stats.NextConfig | whalebux-mining-app_v4/components/stats-panel.tsx:15 | The next level's row, or the current row at level 9; never lower in rate, boost or duration |
| Stats.XpProgress | whalebux-mining-app_v4/components/stats-panel.tsx:33-37 | For a finite range the bar times the range's width is the experience above the minimum times 100, whatever the experience; inside the range it lies in [0, 100], 0 exactly at the minimum and 100 exactly at the maximum. It is 0 at level 9 |
| Stats.XpNeededAsWritten | whalebux-mining-app_v4/components/stats-panel.tsx:59 | The figure exists exactly below level 9, and the experience plus the figure is the level's maximum |
| Stats.XpNeededAsWrittenShort | whalebux-mining-app_v4/components/stats-panel.tsx:59 | The experience-needed figure as written is one less than what the next level requires |
| Stats.XpNeededAsWrittenCounterexample | whalebux-mining-app_v4/components/stats-panel.tsx:59 | At level 1 with 10 experience the panel says 0 more are needed, yet the player is still level 1 |
| Stats.XpNeeded | whalebux-mining-app_v4/components/stats-panel.tsx:59 | The corrected figure is the next level's minimum less the experience; there is none at level 9 |
| Stats.XpNeededReachesNextLevel | whalebux-mining-app_v4/components/stats-panel.tsx:59 | Earning exactly the corrected figure reaches the next level, and any smaller amount stays in the current one |
| Upgrades.CatalogWellFormed | whalebux-mining-app_v4/components/upgrades-panel.tsx:166-210 | Each tab's cards come from a well-formed catalog |
| Upgrades.Purchase | whalebux-mining-app_v4/components/upgrades-panel.tsx:17-37 | An unaffordable purchase changes nothing. An affordable one debits both prices, sets the track to the given tier and leaves everything else |
| Upgrades.Affordable | whalebux-mining-app_v4/components/upgrades-panel.tsx:19-20 | A price is payable unless it is positive and above the balance in its currency (predicate; its use is stated by `Upgrades.Purchase`) |
| Upgrades.PurchaseKeepsBalancesNonNegative | whalebux-mining-app_v4/components/upgrades-panel.tsx:17-37 | With non-negative prices a purchase never makes a balance negative |
| Upgrades.ClassifyCard | whalebux-mining-app_v4/components/upgrades-panel.tsx:48-50 | A card is owned, next or locked, as its tier is at most, one above, or more than one above the owned tier |
| Upgrades.ButtonEnabled | whalebux-mining-app_v4/components/upgrades-panel.tsx:72-90 | The buy button is live only on the next tier's card and only while its prices are payable (predicate; stated through `Upgrades.ClickCard` and `Upgrades.ClickRaisesByOne`) |
| Upgrades.ClickCard | whalebux-mining-app_v4/components/upgrades-panel.tsx:83-90 | A disabled button leaves the account as it is; an enabled one raises the track by exactly one tier |
| Upgrades.ClickRaisesByOne | whalebux-mining-app_v4/components/upgrades-panel.tsx:39-90 | A click changes the account exactly when its button is enabled. Then the track rises by one and that tier's price is paid in one currency |
| Upgrades.OnlyNextTierSells | whalebux-mining-app_v4/components/upgrades-panel.tsx:73-90 | Clicking any card other than the one after the owned tier does nothing |
| DailyLogin.DefaultCalendar | whalebux-mining-app_v4/components/daily-login.tsx:27-54 | 28 cells numbered 1..28, none claimed, every seventh special; plain day `d` pays `50 + 10·d` coins; days 7, 14, 21 and 28 pay a boost of 10, a rate upgrade of 1, a time upgrade of 15 and 0.5 tokens |
| DailyLogin.DayCell | whalebux-mining-app_v4/components/daily-login.tsx:30-47 | Day `d`'s cell carries `d`, is unclaimed, is special exactly when `d` is a multiple of 7, pays `50 + 10·d` coins when plain, and pays 0.5 tokens on day 28 |
| DailyLogin.DefaultCalendarShape | whalebux-mining-app_v4/components/daily-login.tsx:27-54 | Plain-day coin rewards rise strictly from day to day, and any two special days lie whole weeks apart |
| DailyLogin.Load | whalebux-mining-app_v4/components/daily-login.tsx:57-69 | No saved record gives the fresh state; a saved record is taken as is |
| DailyLogin.ClearClaims | whalebux-mining-app_v4/components/daily-login.tsx:113 | Every cell keeps its reward and loses its claimed mark |
| DailyLogin.CheckIn | whalebux-mining-app_v4/components/daily-login.tsx:88-123 | The same day changes nothing. A new day records today and re-opens the claim. The streak becomes 1 on a first login, one more (capped at 28) after a one-day gap, and 1 with claims cleared after a longer gap |
| DailyLogin.ClaimReward | whalebux-mining-app_v4/components/daily-login.tsx:125-151 | A claim already taken, day 0 or a missing cell changes nothing. Otherwise that cell is marked, its reward paid, and the day's claim closed |
| DailyLogin.Claimable | whalebux-mining-app_v4/components/daily-login.tsx:126 | The claim is open while today's reward is untaken and the streak day names a cell (predicate; its use is stated by `DailyLogin.ClaimReward`) |
| DailyLogin.OperationsKeepValid | whalebux-mining-app_v4/components/daily-login.tsx:88-151 | Check-in and claim keep the state well formed; a check-in on a new day always opens the claim |
| DailyLogin.OneClaimPerDay | whalebux-mining-app_v4/components/daily-login.tsx:88-151 | On the same day a second claim and a second check-in change nothing |
| DailyLogin.Day28Repeats | whalebux-mining-app_v4/components/daily-login.tsx:105-107 | Once on day 28, each consecutive day is day 28 again with its 0.5 tokens claimable |
| DailyLogin.StreakCounts | whalebux-mining-app_v4/components/daily-login.tsx:88-123 | `n` consecutive daily check-ins put the streak at `n` (or the old day plus `n`), capped at 28 |
| DailyLogin.MountAsWritten | whalebux-mining-app_v4/components/daily-login.tsx:57-73 | As written, mounting always yields day 1 with the claim re-opened and the saved calendar kept |
| DailyLogin.MountAsWrittenLosesStreak | whalebux-mining-app_v4/components/daily-login.tsx:57-123 | A streak on day 5 reloaded the next day drops to 1 as written, against 6 corrected; a same-day reload after claiming re-opens the claim |
| DailyLogin.Mount | whalebux-mining-app_v4/components/daily-login.tsx:57-123 | Corrected, mounting always records today; a reload on the day of the last check-in gives back the saved record; a first visit starts day 1 on the default calendar with the claim open |
| DailyLogin.MountKeepsStreak | whalebux-mining-app_v4/components/daily-login.tsx:57-123 | Corrected, a same-day reload changes nothing, a next-day reload advances the streak, and a first visit starts day 1 on the default calendar |
| ReferralSystem.InitialMilestonesWellFormed | whalebux-mining-app_v4/components/referral-system.tsx:39-85 | The milestones have distinct ids and strictly rising positive counts |
| ReferralSystem.MarkClaimed | whalebux-mining-app_v4/components/referral-system.tsx:123-127 | Exactly the milestones with the id become claimed; everything else is kept |
| ReferralSystem.ClaimMilestoneAsWritten | whalebux-mining-app_v4/components/referral-system.tsx:123-127 | As written, a claim marks the milestone and leaves the account unchanged |
| ReferralSystem.ClaimMilestoneAsWrittenPaysNothing | whalebux-mining-app_v4/components/referral-system.tsx:123-127 | Claiming the 0.25-token milestone as written pays nothing, while the corrected claim pays the 0.25 tokens |
| ReferralSystem.ClaimMilestone | whalebux-mining-app_v4/components/referral-system.tsx:123-127 | Corrected: an unknown or claimed milestone changes nothing; an unclaimed one is marked and its reward paid |
| ReferralSystem.ClaimMilestonePaysOnce | whalebux-mining-app_v4/components/referral-system.tsx:123-127 | A corrected claim pays at most once: repeating it changes nothing |
| ReferralSystem.NextMilestone | whalebux-mining-app_v4/components/referral-system.tsx:173-176 | The first milestone above the count, or the last one when none is above; nothing only when there are no milestones |
| ReferralSystem.NextMilestoneIsSmallestAbove | whalebux-mining-app_v4/components/referral-system.tsx:173-176 | With rising counts, the next milestone is above the count and at most any milestone above it |
| ReferralSystem.ReferralProgress | whalebux-mining-app_v4/components/referral-system.tsx:178-179 | The bar times the next milestone's threshold is the referral count times 100; below 100 exactly when the count is below that threshold; 100 with no milestones; never negative for a non-negative count |
| ReferralSystem.InitialProgress | whalebux-mining-app_v4/components/referral-system.tsx:35-179 | With 3 referrals the next milestone is 5 and the bar is at 60 % |
| ReferralSystem.Status | whalebux-mining-app_v4/components/referral-system.tsx:258-271 | A milestone shows claimed, a claim button when reached and unclaimed, or how many more are needed |
| ReferralSystem.InitialNothingToClaim | whalebux-mining-app_v4/components/referral-system.tsx:35-85 | Initially no milestone shows a claim button |
| Tasks.WithList | components/tasks-panel.tsx:147-159 | Replacing a named list sets it and leaves the others; the unknown name changes nothing |
| Common.IndexOf | components/tasks-panel.tsx:161 | The position of the first identifier equal to the key, every earlier one different; none exactly when no identifier equals it |
| Tasks.FindTask | components/tasks-panel.tsx:161 | The first task with the id, or none when no task has it |
| Tasks.CompleteTaskAsWritten | components/tasks-panel.tsx:146-189 | A missing task, a completed one, or one at full progress changes nothing. A task short of full is filled and completed, and its reward is paid when there is a session |
| Tasks.ButtonEnabled | components/tasks-panel.tsx:396-399 | A task's button is disabled once completed, and on the weekly tab also until full progress (predicate; its use is stated by the click members) |
| Tasks.ClickAsWritten | components/tasks-panel.tsx:331-458 | As written, a missing task or a disabled button changes nothing; off the weekly tab, a task short of full fares as under the corrected click |
| Tasks.WeeklyNeverPays | components/tasks-panel.tsx:146-189 | As written, clicking a weekly task never changes the board or the account |
| Tasks.WeeklyCounterexample | components/tasks-panel.tsx:396-399 | A weekly task at 5 of 5 has an enabled button, yet pays nothing as written and 0.05 tokens corrected |
| Tasks.CompleteTask | components/tasks-panel.tsx:146-189 | Corrected: any task not yet completed is filled and completed, and its reward is paid when there is a session |
| Tasks.Click | components/tasks-panel.tsx:331-458 | Corrected: a missing task or a disabled button changes nothing; an enabled one finishes its task and pays its reward through the profile hook |
| Tasks.NoSessionCompletesUnpaid | components/tasks-panel.tsx:146-189 | Without a session an enabled button still completes its task at full progress, but the account is unchanged |
| Tasks.EnabledButtonPaysOnce | components/tasks-panel.tsx:146-189 | An enabled button pays its reward once, completes only its task, touches no other list, and a second click does nothing |
| Tasks.FindKeepsPosition | components/tasks-panel.tsx:161 | Finding by id is unaffected by progress and completion |
| Tasks.ResetDailyTasks | components/tasks-panel.tsx:191-199 | Every daily task is reset to no progress and not completed, keeping identity and reward; other lists stay |
| Tasks.ResetReopensDaily | components/tasks-panel.tsx:191-199 | After a reset any daily task pays its reward again |
| ReferralMarket.FindOffer | components/referral-market.tsx:125 | The first offer with the id, or none |
| ReferralMarket.Remove | components/referral-market.tsx:132 | No offer with the id is left, every offer with another id is kept, nothing new appears, and a list without the id is unchanged |
| ReferralMarket.RemoveKeepsOrder | components/referral-market.tsx:132 | The remaining offers are a subsequence of the original list, in their original order |
| ReferralMarket.RemoveKeepsCount | components/referral-market.tsx:132 | Every offer with another id occurs as often after the removal as before |
| ReferralMarket.CreateOffer | components/referral-market.tsx:97-122 | With an empty field nothing happens. Otherwise a new active offer by the player, named after the clock, goes to the front of the player's offers and the form resets |
| ReferralMarket.CreateEnabled | components/referral-market.tsx:355-363 | The create button is live when all four fields are filled and the reward is not above the coin balance (predicate; its use is stated by `ReferralMarket.CreateEnabledPublishes`) |
| ReferralMarket.CreateEnabledPublishes | components/referral-market.tsx:355-363 | An enabled create button always publishes an offer no larger than the coin balance |
| ReferralMarket.AcceptOffer | components/referral-market.tsx:124-133 | An unknown offer changes nothing; a known one moves, made active, to the front of the tasks and leaves the market |
| ReferralMarket.MarkCompleted | components/referral-market.tsx:140 | Exactly the tasks with the id become completed |
| ReferralMarket.CompleteTask | components/referral-market.tsx:135-146 | An unknown or completed task changes nothing; otherwise it is completed, and with a session its reward is added to coins only, while without one the account stays |
| ReferralMarket.CompleteTaskPaysOnce | components/referral-market.tsx:135-146 | Completing the same task again changes nothing |
| ReferralMarket.CancelTask | components/referral-market.tsx:148-159 | An unknown or completed task changes nothing. Otherwise it is dropped from the tasks and, unless it is the player's own offer, put back active at the front of the market |
| ReferralMarket.AcceptThenCancel | components/referral-market.tsx:124-159 | Accepting then cancelling restores the tasks and puts the offer back active in front, which restores an unchanged market when it was already there |
| Wallet.OnAmountChange | whalebux-mining-app_v4/components/wallet-panel.tsx:24-29 | The field takes an all-digit text and otherwise keeps its old text |
| Wallet.FieldStaysDigits | whalebux-mining-app_v4/components/wallet-panel.tsx:17-29 | Starting from digits, the field holds only digits after any edits |
| Wallet.ParseAmount | whalebux-mining-app_v4/components/wallet-panel.tsx:36-37 | An empty field is no number; otherwise its decimal value |
| Wallet.SwapEnabled | whalebux-mining-app_v4/components/wallet-panel.tsx:156 | The swap button is live for a positive amount not above the coin balance (predicate; its use is stated by `Wallet.HandleSwap`) |
| Wallet.CalculateTokens | whalebux-mining-app_v4/components/wallet-panel.tsx:21-33 | 10 000 coins are worth 0.15 tokens, in proportion |
| Wallet.HandleSwap | whalebux-mining-app_v4/components/wallet-panel.tsx:35-48 | A disabled swap changes nothing. An enabled one takes the coins, adds the tokens at the rate, clears the field and touches nothing else |
| Wallet.SwapConservesValue | whalebux-mining-app_v4/components/wallet-panel.tsx:35-48 | A swap keeps total value at the rate and never makes coins negative. It changes the account exactly when enabled |
| Wallet.SwapExample | whalebux-mining-app_v4/components/wallet-panel.tsx:21-48 | Swapping 10 000 of 12 000 coins leaves 2 000 coins and 0.15 tokens |
| Vip.PlansShape | components/vip-membership.tsx:43-107 | Three plans for tiers 1..3, each 30 days, each tier dearer than the one below in every token |
| Vip.FindPlan | components/vip-membership.tsx:166 | A plan exists exactly for tiers 1..3, and it is the plan of that tier |
| Vip.PickPlan | components/vip-membership.tsx:158-161 | Picking a tier opens the dialog for it |
| Vip.PlanButtonEnabled | components/vip-membership.tsx:384-388 | A plan's button is disabled only for the tier already held (predicate; its use is stated by `Vip.PurchaseIsFree`) |
| Vip.ConfirmPurchase | components/vip-membership.tsx:163-187 | No tier or an unknown tier changes nothing. Otherwise the dialog closes, and with a session the tier is recorded with an expiry 30 days from now and nothing else changes; without one the account stays |
| Vip.CeilDiv | components/vip-membership.tsx:207 | The rounded-up quotient `q` satisfies `(q - 1)·b < a <= q·b` |
| Vip.DaysRemaining | components/vip-membership.tsx:200-210 | Never negative; 0 with no expiry or once it has passed; otherwise the whole days to the expiry, rounded up |
| Vip.PurchaseCountsDown | components/vip-membership.tsx:163-210 | A purchase shows 30 days, then `30 - k` after `k` whole days, and 0 from day 30 on |
| Vip.PurchaseIsFree | components/vip-membership.tsx:163-187 | A purchase never changes coins or tokens though the price is positive; afterwards only the bought tier's button is disabled |
| Profile.HeadsAreWordStarts | components/user-profile.tsx:65-72 | The first letters of the space-separated parts are exactly the word-starting characters |
| Profile.GetInitials | components/user-profile.tsx:65-72 | "?" for a missing or empty name; otherwise the upper-cased word-starting characters |
| Profile.TwoWordInitials | components/user-profile.tsx:65-72 | "crypto fan" gives "CF" |
| Profile.TwoWords | components/user-profile.tsx:65-72 | Two words joined by a space start exactly two words, at their first letters |
| Profile.BlankInitials | components/user-profile.tsx:65-72 | A name of spaces only gives empty initials; an empty name gives "?" |
| Profile.VipName | components/user-profile.tsx:41-52 | Tiers 1..3 show the VIP plan's own name; any other tier shows "Free User" |
| Profile.VipBoostLabel | components/user-profile.tsx:250 | The boost label is 5 times the tier for tiers 1..3, and 15 above |
| Profile.FriendSlotLabel | components/user-profile.tsx:257 | The friend-slot label is `2·tier - 1` for tiers 1..3, and 5 above |
| Profile.LabelsMonotone | components/user-profile.tsx:250-257 | Both labels grow with the tier and top out at 15 and 5 |
| Text.NatToStringRoundTrip | components/mining-dashboard.tsx:29 | A number's decimal text reads back as the number |
| Text.NatToString | components/mining-dashboard.tsx:29 | The text is non-empty digits without a leading zero, one digit exactly below 10 and two exactly from 10 to 99 |
| Text.PadStart2 | components/mining-dashboard.tsx:29 | The text is padded on the left with zeros to length two, and a longer text is kept |
| Text.PadStart2Value | components/mining-dashboard.tsx:29 | Padding to two digits keeps the text all digits and keeps its value |
| Text.JoinSplit | components/user-profile.tsx:68 | Splitting on a separator and joining with it gives back the text |
| Text.Split | components/user-profile.tsx:68 | There is at least one piece and no piece contains the separator |
| Text.SplitCountsSeparators | components/user-profile.tsx:68 | There is exactly one piece more than there are separators |
| Text.JoinCountsSeparators | components/user-profile.tsx:68 | Joining pieces free of the separator puts one separator between each neighbouring pair |
| Text.ToUpper | components/user-profile.tsx:71 | Each character is mapped on its own, ASCII `a`..`z` to `A`..`Z` and every other character kept, so the length is kept |

## Left out

- Rendering, icons, colours, tabs, dialogs' visibility, toasts, the clipboard copy of the referral link, and `formatExpiryDate`. These are display only.
- Browser storage, the profile table and the session lookup are modelled as parameters (`Option` for what was saved, `hasSession`, the returned payload). JSON parsing and its failure path, and the network error log, are not modelled.
- Timers: each run of the one-second interval is one `Tick`. The clock is an integer parameter (milliseconds or day numbers). Time zones, daylight-saving days and `Date` string parsing are not modelled, so the daily login's `Math.ceil` of a day difference becomes a plain day difference.
- The wallet connection through the browser extension. It is a foreign call that changes no game state.
- JavaScript number semantics: no floating-point rounding, no `NaN` or `Infinity`. The level-9 maximum is `Unbounded`, and the "XP needed" text at level 9 becomes "no figure".
- Levels outside 1..9 crash the source on a missing table row; the mining and stats members require a valid level.
- Unrecognised purchase types in `purchaseUpgrade` and unrecognised reward types are not modelled, because tracks and reward kinds are closed datatypes. An unknown task list name is modelled as `Unknown`.
- `Number(...)` of free text in the offer form is a parameter of `ReferralMarket.CreateOffer`, since the text is not parsed by the model.
- The mock data of the market, milestones and referred users is not modelled, apart from the initial milestones and referral count. The same goes for display-only task and plan texts.
- Wallet.HandleSwap: requires an all-digit field. `Wallet.FieldStaysDigits` proves the input filter keeps it so, which means the non-numeric `parseInt` path is unreachable.
- ReferralSystem.ReferralProgress: requires every milestone count to be positive, as in the fixed milestone list. A zero count would divide by zero in the source.
- Mining.Restore: the ledger is a parameter. As written the hook hands in the starting record of the user-data provider (`Mining.RestoreAsWritten`); that the provider mounts together with the mining provider is assumed, since the layout that mounts them is not part of this model.
- Mining.Restore: requires a running record still before its end to have a start time different from its end. Otherwise the source divides by zero and shows `NaN`.
- Profile.GetInitials: takes each word's first character and upper-cases ASCII letters only. JavaScript takes the first UTF-16 unit and upper-cases by Unicode rules, so "élodie" gives "É" there and "é" here.
- Text.ToUpper: maps ASCII `a`..`z` only and keeps every other character. JavaScript's `toUpperCase` follows Unicode and can lengthen a string ("ß" becomes "SS").
- Each component of the profile-backed version calls the user-data hook and holds its own copy of the record; a save merges into that copy only after the network call returns. The model keeps one ledger and applies each update at once.
- The `Expired` status of referral market tasks is a constructor that no handler produces; the model has it only so that the status type matches the source's three labels.

## Findings

| source | as written | input that shows it | evidently intended | confidence | as-written member | corrected member |
|---|---|---|---|---|---|---|
| whalebux-mining-app_v4/components/daily-login.tsx:57-73 | The mount effect schedules the saved record's restore, then calls `checkDailyLogin` in the same render, which still sees `lastLoginDate` null. Every mount therefore resets the streak to day 1 and re-opens the day's claim | Saved day 5 with the last login yesterday, reloaded today: day 1 instead of 6. Reloaded on the claimed day: the claim opens again | Check in against the loaded record | not executed | DailyLogin.MountAsWrittenLosesStreak | DailyLogin.MountKeepsStreak |
| components/tasks-panel.tsx:165 | `completeTask` pays only when progress is below the maximum, while the weekly button is enabled only at full progress | Weekly task "weekly1" at 5 of 5: the button is enabled and the click pays nothing | Pay any task not yet completed | not executed | Tasks.WeeklyNeverPays | Tasks.EnabledButtonPaysOnce |
| whalebux-mining-app_v4/components/referral-system.tsx:123-127 | `claimMilestoneReward` marks the milestone claimed but never pays its reward | Claiming milestone 3 (0.25 tokens) leaves the tokens unchanged | Pay the milestone's reward once when it is claimed | not executed | ReferralSystem.ClaimMilestoneAsWrittenPaysNothing | ReferralSystem.ClaimMilestonePaysOnce |
| whalebux-mining-app_v4/components/stats-panel.tsx:59 | "XP needed for Level L+1" shows `xpMax - xp`, one less than the next level's minimum minus `xp` | Level 1 with 10 experience: shows 0 needed, yet the player stays at level 1 | Show the next level's minimum minus the experience | not executed | Stats.XpNeededAsWrittenCounterexample | Stats.XpNeededReachesNextLevel |
| whalebux-mining-app_v4/hooks/use-mining-state.tsx:67-107 | The restore effect runs once on mount and pays a session found completed from the first render's ledger, the user-data provider's starting record, before the saved ledger has loaded | A session started at level 1 with one rate upgrade, reloaded after its end: 2 coins instead of 4 | Pay from the loaded ledger, as the countdown does | not executed; assumes both providers mount together | Mining.RestoreAsWrittenIgnoresLedger | Mining.RestoreAgreesWithTicks |
