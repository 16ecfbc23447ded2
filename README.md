# Sovereign, modelled in Dafny

Sovereign is a single-page "hunter" self-improvement app. Everything is kept in
one profile plus four lists (quests, habits, ledger transactions, journal
entries). Completing quests and habits earns experience. Experience raises the
hunter's level, unspent ability points and rank. It also damages the weekly
boss and counts towards a daily activity heatmap. A money ledger ("the vault")
gives the hunter a daily spending allowance. Overspending puts the hunter under
a penalty: 30% less experience, half damage to the boss and 10 HP lost per
expense. A dungeon, a card shop and a journal archive sit beside these.

The model covers the app shell's state and handlers in `App.tsx` and the logic
of the eight components. Each TypeScript state updater `prev => next` becomes a
function from the old record to the new one. A component whose `useState`
fields its handlers update becomes a class with those fields, and each handler
becomes a method with `modifies` and an `ensures` tying the new state to a
specification function. The app shell is the class `App.Sovereign`, the quest
form is `QuestLog.QuestForm`, the journal form is `Archive.JournalForm`, the
fight is `DungeonRoom.Dungeon`, the chest shop is `Shop.ChestShop` and the boss
summoner is `DashboardBoss.BossSummoner`. The two loops of the source are
methods with loop invariants: the level-up loop of `addExp`
(`Progression.AddExp`) and the heatmap grid builder (`StatusWindow.HeatmapGrid`).

Modules, one per source file, plus shared helpers:

- `Types`: the records of `types.ts` and the initial profile.
- `Seqs`, `Text`, `Millis`: `filter`, `slice`, `trim`, `split`, number
  printing, `padStart`, and millisecond arithmetic.
- `Budget`: the allowance `floor(monthlyIncome / 30)` and per-day ledger sums.
  Both `App.tsx` and `Vault.tsx` use them.
- `Progression`: `addExp`, `damageBoss` and `recordActivity`, plus the rank
  thresholds.
- `App`: storage, import and export, the day rollover, the expense, quest,
  habit and journal handlers, and the `Sovereign` class.
- `StatusWindow`, `Vault`, `QuestLog`, `DashboardBoss`, `Archive`,
  `DungeonRoom`, `Shop`, `Dashboard`: one module per component.

Integers are unbounded. All amounts, hit points and counters in the app are
whole numbers, so none of this arithmetic is floating point, with two
exceptions. `Math.floor(x * 0.7)` is modelled exactly, and separately as
IEEE-754 doubles evaluate it (see Findings). `Math.floor(x * 1.2)` is modelled
as `x * 6 / 5`. Random draws are `real` inputs in [0, 1).

The model follows the code where it differs from the app's documented intent.
`upgradeStat`, for one, recomputes maximum HP from vitality whichever stat is upgraded,
not only when vitality is. The one exception is the penalty's rounding: the
code's doubles credit 125 for a reward of 180, and the model credits the exact
seven tenths rounded down, 126 (see Findings).

## Model

A state updater that only computes the next state has no row of its own; the
rows of the lemmas and methods that state what it does stand for it:
`App.DayRollover` by `App.RolloverEffects` and `App.RolloverWithinLimit`;
`App.ExpenseLogged` and `App.IsOver` by `App.ExpenseEffects`; `App.ClearQuest`
by `App.ClearQuestOk`; `App.ClearHabit` by `App.ClearHabitOk`;
`App.QuestCompleted` by `App.QuestCompletedEffects`; `App.HabitCompleted` by
`App.HabitCompletedEffects`; `App.Imported` and `App.Snapshot` by
`App.ImportSnapshot` and `App.ImportPerKey`; `App.Restore` by
`App.RestoreStore`; `Progression.GainExp` and `Progression.CreditedExp` by
`Progression.GainExpEffects` and `Progression.AddExp`; `Progression.Settle` by
`Progression.SettleSpec`; `Progression.DamageBoss` by
`Progression.DamageBossEffects`; `Archive.ParseTags` by `Archive.ParseTagsShape`,
`Archive.ParseTagsMembers`, `Archive.SingleTag` and `Archive.NoSeparator`;
`Archive.EntrySaved` by `Archive.EntrySavedEffects`; `Vault.Remaining` and
`Vault.RemainingMonth` by `Vault.ExpenseMatchesRemaining`; `Vault.Submit` by
`Vault.SubmitKeepsLedgerPositive` and `Vault.HandleLog`; `QuestLog.SaveLists`,
`QuestLog.ApplyEdit` and `QuestLog.NewQuest` by `QuestLog.SaveListsEffects`;
`QuestLog.ResetForm` by `QuestLog.QuestForm.Reset`; `QuestLog.ShownToday` by
`QuestLog.CurrentQuests` and `QuestLog.NewQuestShownFirst`.

| member | source | states |
|---|---|---|
| Types.InitialProfile | App.tsx:13-47 | A new hunter is level 1 at rank E with 0 of 100 experience, full HP consistent with vitality, no penalty and no boss, and was last reset today |
| Seqs.Filter | components/Dashboard.tsx:13-14 | `filter` keeps exactly the elements that pass, and the result is never longer than the input |
| Seqs.FilterConcat | components/QuestLog.tsx:110-117 | Filtering distributes over concatenation, so filtered lists keep their relative order |
| Seqs.FilterAllKept | components/QuestLog.tsx:48 | A filter that every element passes returns the list unchanged |
| Seqs.Find | App.tsx:290 | `find` fails exactly when no element passes, and otherwise returns the first element of the list that passes |
| Seqs.Take | components/Dashboard.tsx:13 | `slice(0, n)` is the prefix of length min(n, length), and every element in it comes from the list |
| Text.Trim | components/Archive.tsx:20 | `trim()` is empty exactly when the text is all white space; otherwise it neither starts nor ends with white space and holds only characters of the text |
| Text.TrimCutsEdges | components/Archive.tsx:20 | `trim()` is the text with only white space cut off at either end: a slice `s[i..j]` of it with white space alone before `i` and from `j` on |
| Text.Split | components/Archive.tsx:25 | `split(sep)` gives at least one piece and no piece contains the separator |
| Text.JoinSplit | components/Archive.tsx:25 | Joining the pieces of `split(sep)` with `sep` gives back the text, so splitting loses nothing |
| Text.NatToString | components/StatusWindow.tsx:39 | `String(n)` of a natural number is a non-empty string of decimal digits |
| Text.ParseNatToString | components/StatusWindow.tsx:39 | Reading back the digits of `String(n)` gives `n` |
| Text.PadStart2 | components/StatusWindow.tsx:39 | `padStart(2, '0')` is at least two characters long, ends with the original text and adds only zeros in front |
| Text.TwoDigits | components/StatusWindow.tsx:39 | A number below 100, printed and zero-padded, is two characters that read back as the number |
| Budget.StandardDaily | App.tsx:105 | The standard daily allowance is the largest integer whose 30-fold does not exceed the monthly income (floor division, negative incomes included) |
| Budget.DatedOn | App.tsx:101-102 | The ledger entries of a date are exactly those whose date key matches |
| Budget.TotalConcat | App.tsx:103 | The `reduce` sum of amounts is additive over concatenation |
| Budget.SpentOnConcat | App.tsx:101-103 | The spending of a date splits over two halves of the ledger |
| Budget.SpentOnPrepend | App.tsx:335 | Prepending a transaction changes only its own date's spending, and by exactly its amount |
| Budget.SpentOnNothing | components/Vault.tsx:31-35 | A date with no entries has spending 0 |
| Budget.SpentOnNonNegative | components/Vault.tsx:31-35 | With positive amounts only, every date's spending is non-negative |
| Progression.PenalisedExp | App.tsx:185 | The penalised reward r satisfies 10r <= 7·amount < 10r + 10, so it is exactly floor(0.7 · amount) |
| Progression.NextMaxExp | App.tsx:194 | The next threshold r is floor(1.2 · m): 5r <= 6m < 5r + 5, and it never falls below m |
| Progression.Grow | App.tsx:191-196 | Thresholds never shrink over any number of level-ups |
| Progression.SettleSpec | App.tsx:191-196 | The level-up loop ends after k >= 0 level-ups with threshold Grow(m, k) and 5k more points. It has consumed exactly Cost(m, k) experience and leaves experience below the threshold, not negative if it started non-negative |
| Progression.RankAfter | App.tsx:198-203 | From level 10 on, the rank is the band containing the level (at least its minimum level, below the next band's); below level 10 the previous rank is kept |
| Progression.RankMonotone | App.tsx:198-203 | A higher level never gives a lower rank |
| Progression.AddExp | App.tsx:183-214 | The loop of `addExp` computes exactly `GainExp`: it credits the reward (reduced under penalty), levels up until experience is below the threshold, then recomputes the rank |
| Progression.GainExpEffects | App.tsx:183-214 | After `addExp` experience is normalised below the threshold. Each level-up adds one level and five points and grows the threshold by a fifth, and the credited experience is fully accounted for. A rank consistent with the level stays consistent, and no other profile field changes |
| Progression.BossDamage | App.tsx:217-225 | Boss damage is positive: the rank's table value, or exactly half of it under penalty |
| Progression.DamageBossEffects | App.tsx:216-237 | A hit lowers boss HP to max(0, hp − damage) and never raises it. The boss stays well formed (defeated exactly at 0 HP). The kill counter rises only when a live boss reaches 0, nothing else changes, and a dead boss is left alone |
| Progression.KillCountedOnce | App.tsx:226-228 | Over any sequence of hits, the kill counter rises by one exactly when a boss that was alive ends at 0 HP, so each boss counts at most once |
| Progression.RecordActivity | App.tsx:130-139 | Today's activity count (0 if absent) rises by one; every other day and every other profile field is untouched |
| Progression.PenaltyRoundsDownAt180 | App.tsx:185 | With IEEE-754 doubles, `Math.floor(180 * 0.7)` is 125, while seven tenths of 180 is 126 |
| App.WithDefaultsFields | App.tsx:50-57 | Loading spreads the stored profile over the initial one: a stored field wins and a missing field takes the default |
| App.RestoreStore | App.tsx:50-77 | Loading what the save effect wrote gives back exactly the saved state, whatever the clock says; empty storage gives the initial profile and empty lists |
| App.ImportSnapshot | App.tsx:142-181 | Importing an export restores the exported state into any current state; a file that does not parse, or that has none of the keys, changes nothing |
| App.ImportPerKey | App.tsx:169-174 | Each present key replaces exactly its own piece of state, and each absent key keeps it |
| App.ResetHabits | App.tsx:118 | The rollover un-ticks every habit and changes nothing else about any habit or the order |
| App.RolloverEffects | App.tsx:95-120 | On the same date nothing changes. On a new date the balance becomes yesterday's limit minus yesterday's spending, and the penalty holds exactly when the new limit is negative. Both date stamps move to today, habits lose only their ticks, other state is untouched, and a second rollover the same day is a no-op |
| App.RolloverWithinLimit | App.tsx:105-115 | A day kept within its limit leaves a non-negative carryover, so with non-negative income the new day starts without penalty |
| App.ExpenseEffects | App.tsx:325-352 | The expense is prepended dated today. The verdict is "over" exactly when today's spending in the new ledger exceeds today's limit, and the penalty follows the verdict both ways. HP drops by 10, but not below 1, only when over, the month's total grows by the amount, and nothing else changes |
| App.MarkCompleted | App.tsx:292 | Every quest with the id is marked completed; every other quest and the order are unchanged |
| App.MarkHabitDone | App.tsx:307 | Every habit with the id is ticked with its streak one longer; the rest are unchanged |
| App.InitialProfileOk | App.tsx:13-47 | The initial profile satisfies the profile invariants: positive threshold, normalised experience, rank matching the level, well-formed boss |
| App.ClearQuestOk | App.tsx:293-301 | Clearing a quest keeps the profile invariants and never lowers the level. It pays exactly the quest's gold and counts one clearance (one main mission exactly when the quest is main), and today's activity rises by one |
| App.ClearHabitOk | App.tsx:308-312 | Ticking a habit keeps the profile invariants, never lowers the level, counts exactly one habit and no quest or gold, and today's activity rises by one |
| App.QuestCompletedEffects | App.tsx:289-303 | A missing or already completed quest changes nothing. Otherwise every quest with the id is completed, the rest are unchanged, the profile takes the clearance and the other lists are untouched. Completing the same quest again is a no-op |
| App.HabitCompletedEffects | App.tsx:304-314 | A missing or already ticked habit changes nothing. Otherwise every habit with the id is ticked with its streak one longer and the profile takes the tick. Ticking again the same day is a no-op |
| App.Sovereign.Load | App.tsx:50-77 | The app's state on mount is the stored state over the defaults |
| App.Sovereign.Persist | App.tsx:122-128 | The save effect writes every piece of the current state |
| App.Sovereign.RollOver | App.tsx:95-120 | The rollover effect performs `DayRollover` on the state |
| App.Sovereign.CompleteQuest | App.tsx:289-303 | `onCompleteQuest` performs `QuestCompleted` on the state |
| App.Sovereign.CompleteHabit | App.tsx:304-314 | `onCompleteHabit` performs `HabitCompleted` on the state |
| App.Sovereign.LogExpense | App.tsx:325-352 | `onExpense` returns the over-limit verdict computed on the old ledger and performs `ExpenseLogged` |
| App.Sovereign.RewardEntry | App.tsx:362 | `onEntryReward` grants 20 experience and one activity count |
| App.Sovereign.ImportData | App.tsx:162-181 | Import performs `Imported` with the parsed file, or changes nothing when parsing fails |
| App.Sovereign.ExportData | App.tsx:142-160 | Export produces the snapshot of all five pieces of state stamped with the time |
| StatusWindow.UpgradeStat | components/StatusWindow.tsx:12-22 | Without points nothing changes. Otherwise the named stat rises by one, the other stats stay and one point is spent. Maximum HP is recomputed from vitality, and HP follows it only if it was full. HP within maximum and a maximum consistent with vitality are preserved |
| StatusWindow.ActiveDays | components/StatusWindow.tsx:24 | The active-day count is the number of days begun since the start date, and at least 1 |
| StatusWindow.CalendarKeyFormat | components/StatusWindow.tsx:39 | For a four-digit year, the heatmap key is a ten-character date of section 4.1.2.2 of ISO 8601:2004: hyphens at positions 4 and 7, digits elsewhere, and each field reads back as its number |
| StatusWindow.CalendarKeyInjective | components/StatusWindow.tsx:39-40 | Different days give different keys, so no day's activity is shown on another day's cell |
| StatusWindow.HeatmapGrid | components/StatusWindow.tsx:27-44 | The grid is `firstDay` blank cells followed by one cell per day of the month, each with its key and its activity count (0 if absent) |
| StatusWindow.Bucket | components/StatusWindow.tsx:84-88 | A count of 0 is empty, 1-2 low, 3-5 mid and 6 or more high, each in both directions |
| StatusWindow.BucketMonotone | components/StatusWindow.tsx:84-88 | More activity never shows a paler cell |
| Vault.HandleLog | components/Vault.tsx:40-47 | An amount is forwarded exactly when the field holds a number above zero, and it is forwarded unchanged |
| Vault.ExpenseMatchesRemaining | components/Vault.tsx:28-38 | Right after an expense, the penalty holds exactly when the vault shows a negative amount remaining today. Today's remaining amount drops by exactly the expense, other dates' figures stay put, and the month's remainder drops by the expense too |
| Vault.SubmitKeepsLedgerPositive | components/Vault.tsx:40-47 | Submitting the form keeps every ledger amount positive. It either changes nothing or adds exactly one entry, and no date's spending ever falls or goes negative |
| Vault.FormOnlyOnToday | components/Vault.tsx:103 | The expense form is shown exactly on the date where the forward arrow is disabled, namely today |
| QuestLog.RewardMonotone | components/QuestLog.tsx:63-67 | Every reward is positive, and a higher rank pays strictly more experience and strictly more gold |
| QuestLog.Toggle | components/QuestLog.tsx:46-50 | Toggling a weekday flips its membership and leaves every other day's membership alone |
| QuestLog.ToggleTwice | components/QuestLog.tsx:46-50 | Toggling a day twice restores the set of days, and restores the list itself when the day was absent |
| QuestLog.ToggleKeepsNoDuplicates | components/QuestLog.tsx:46-50 | Toggling never creates a repeated weekday |
| QuestLog.FilterKeepsNoDuplicates | components/QuestLog.tsx:48 | Removing a day by filtering keeps a list without repeats free of repeats |
| QuestLog.EditQuests | components/QuestLog.tsx:69-73 | An edit changes only the quests carrying the edited id, and keeps the list's length and order |
| QuestLog.SaveListsEffects | components/QuestLog.tsx:52-90 | Without a title or a modal nothing changes. The habit modal puts a fresh unticked habit with no streak in front. A quest modal either edits only the edited quest's text, days, rank and rank rewards, or puts a fresh uncompleted quest in front, dated today, carrying the form's title, description and scheduled days, with routine and main flags following its type. Each case changes one list only |
| QuestLog.QuestForm.constructor | components/QuestLog.tsx:16-23 | The form starts closed, not editing, blank, on weekdays Monday to Friday, at rank E and habit tier C |
| QuestLog.QuestForm.Open | components/QuestLog.tsx:134 | An add button opens its modal and leaves the other fields as they were |
| QuestLog.QuestForm.ToggleDay | components/QuestLog.tsx:46-50 | `toggleDay` performs `Toggle` on the scheduled days only |
| QuestLog.QuestForm.OpenEdit | components/QuestLog.tsx:92-96 | Editing loads the quest's title, description, rank and days (none becomes empty) and opens its modal for its id |
| QuestLog.QuestForm.Reset | components/QuestLog.tsx:40-44 | `resetForm` clears the form but keeps the habit tier |
| QuestLog.QuestForm.Save | components/QuestLog.tsx:52-90 | `handleSaveQuest` performs `SaveLists` and resets the form, unless the guard stops it, in which case the form is untouched |
| QuestLog.CurrentQuests | components/QuestLog.tsx:110-117 | A section shows exactly the quests of its type that are either completed with today's target date, or open, where an open routine also needs today scheduled |
| QuestLog.NewQuestShownFirst | components/QuestLog.tsx:110-117 | A quest just created from its section's modal heads that section the same day (a routine only if scheduled today), with the rest unchanged below |
| QuestLog.DayCountdown | components/QuestLog.tsx:26-38 | Hours, minutes below 60 and seconds below 60 add up to the time left, to within one second |
| DashboardBoss.NewBoss | components/DashboardBoss.tsx:65-81 | A summoned boss is of the hunter's rank, at full HP from the rank table, undefeated and well formed |
| DashboardBoss.HpMonotone | components/DashboardBoss.tsx:65-68 | A higher rank gets a boss with more HP, and a higher-rank quest deals more damage |
| DashboardBoss.RegenerationDelay | components/DashboardBoss.tsx:89-96 | A summon is scheduled exactly when there is no boss or it is defeated: after 5000 ms after a defeat, at once when there is none |
| DashboardBoss.RegenerationFollowsKill | components/DashboardBoss.tsx:89-96 | A fresh boss schedules nothing. A hit on it schedules the next summon exactly when the boss drops to 0 HP |
| DashboardBoss.BossSummoner.constructor | components/DashboardBoss.tsx:13 | The summoner starts idle |
| DashboardBoss.BossSummoner.Begin | components/DashboardBoss.tsx:34-36 | A generation starts exactly when none is in flight, and afterwards one is |
| DashboardBoss.BossSummoner.Finish | components/DashboardBoss.tsx:70-86 | On success the boss for the rank read at the start replaces the current one. On failure the profile is untouched. Either way, loading ends |
| DashboardBoss.NextMonday | components/DashboardBoss.tsx:19-22 | The target is a local midnight that falls on a Monday, strictly after now and at most seven days later |
| DashboardBoss.WeekCountdown | components/DashboardBoss.tsx:24-28 | Days, hours below 24, minutes below 60 and seconds below 60 add up to the time left, to within one second |
| DungeonRoom.CritChance | components/DungeonRoom.tsx:51 | The critical chance never exceeds 50%, and is at least 5% for non-negative agility |
| DungeonRoom.AttackDamage | components/DungeonRoom.tsx:50-52 | An attack deals at least 10 for non-negative strength, and a critical hit deals exactly double |
| DungeonRoom.Dungeon.constructor | components/DungeonRoom.tsx:19-24 | The room starts idle, with no enemy, the hunter's HP, an empty log and the player to move |
| DungeonRoom.Dungeon.StartDungeon | components/DungeonRoom.tsx:34-42 | Entering a gate starts a valid fight against a fresh copy of its enemy at full HP, with the hunter at full HP and the player to move |
| DungeonRoom.Dungeon.PlayerAttack | components/DungeonRoom.tsx:46-68 | Off turn or without an enemy nothing happens. Otherwise the enemy loses the attack's damage, never below 0, and at 0 the fight is won and pays the enemy's rewards once. Otherwise the turn passes to the enemy. The log grows by exactly those lines and validity is kept |
| DungeonRoom.Dungeon.EnemyTurn | components/DungeonRoom.tsx:70-87 | The enemy's hit lowers the hunter's HP by its damage, never below 0. At 0 the fight is lost; otherwise the turn returns to the player. Validity is kept |
| DungeonRoom.Dungeon.Leave | components/DungeonRoom.tsx:140 | Leaving returns to the gate list, disables attacking and keeps the rest |
| DungeonRoom.EnemiesWellFormed | components/DungeonRoom.tsx:11-16 | Every gate's enemy starts at full positive HP, deals positive damage and pays positive rewards |
| Shop.PickRarity | components/Shop.tsx:36-41 | The draw picks legendary above 0.98, epic in (0.85, 0.98], rare in (0.5, 0.85] and common otherwise, each in both directions |
| Shop.ChestCards | components/Shop.tsx:28-33 | A chest holds four cards |
| Shop.PickCard | components/Shop.tsx:36-41 | The card received is one of the chest's four and has the picked rarity |
| Shop.Purchase | components/Shop.tsx:17-47 | Without 50 coins nothing changes. Otherwise exactly 50 coins are charged (never below 0) and the inventory gains exactly the drawn card at its end; nothing else changes |
| Shop.ChestShop.constructor | components/Shop.tsx:12-13 | The shop starts closed with nothing revealed |
| Shop.ChestShop.BuyChest | components/Shop.tsx:17-25 | Buying charges the chest's cost and starts opening exactly when the coins suffice; otherwise nothing changes |
| Shop.ChestShop.FinishOpening | components/Shop.tsx:27-46 | Opening reveals the drawn card, appends it to the inventory and ends the opening |
| Dashboard.ActiveQuests | components/Dashboard.tsx:13 | The dashboard offers the first open quests, at most four, in list order, all of them open quests of the list |
| Dashboard.RecentLogs | components/Dashboard.tsx:142 | The recent log shows the first completed quests, at most five, in list order |
| Dashboard.Partition | components/Dashboard.tsx:13-14 | The open quests and the completed count add up to the whole list |
| Dashboard.EmptyStates | components/Dashboard.tsx:101-151 | "All missions cleared" shows exactly when no quest is open, and "no system logs" exactly when none is completed; on a non-empty list they never show together |
| Archive.TrimAll | components/Archive.tsx:25 | Every piece is trimmed, in place |
| Archive.ParseTagsShape | components/Archive.tsx:25 | No parsed tag is empty, starts or ends with white space, or contains a comma |
| Archive.ParseTagsMembers | components/Archive.tsx:25 | The tags are exactly the non-empty trimmed pieces between commas |
| Archive.SingleTag | components/Archive.tsx:25 | A comma-free, non-blank tag field parses to the single trimmed tag |
| Archive.NoSeparator | components/Archive.tsx:25 | Text without the separator splits into itself alone |
| Archive.EntrySavedEffects | components/Archive.tsx:19-29 | A blank entry is refused. Otherwise exactly one entry is put in front with the text as typed and the parsed tags, it is rewarded exactly once, experience stays normalised, and quests, habits and ledger are untouched |
| Archive.JournalForm.constructor | components/Archive.tsx:15-16 | The journal form starts blank |
| Archive.JournalForm.SaveEntry | components/Archive.tsx:19-29 | `saveEntry` performs `EntrySaved`, and clears the fields exactly when the entry is taken |
| Archive.Insert | components/Archive.tsx:31 | Inserting into a newest-first list keeps it newest first and adds exactly that quest |
| Archive.SortNewestFirst | components/Archive.tsx:31 | The sort puts the quests newest first and is a permutation of its input |
| Archive.CompletedQuests | components/Archive.tsx:31 | The history holds exactly the completed quests, each as often as in the list, newest first |
| Archive.Preview | components/Archive.tsx:65 | An entry of at most 120 characters is shown whole; a longer one shows its first 120 characters followed by "..." |

## Left out

- Browser storage, JSON (de)serialisation, `FileReader`, `Blob` and the download link are not modelled. Storage is the record `App.Saved` and a parsed backup file is `App.Backup`. A file that does not parse is `None`.
- App.ImportSnapshot: an imported profile is taken as a whole `Profile`. A JSON profile missing some fields, or holding fields of the wrong type, is not modelled.
- The Gemini calls of `generateBoss` are left out. The name and image they produce arrive as the `Manifestation` input of `BossSummoner.Finish`, and a failed call is `None`.
- Timers and intervals (`setTimeout`, `setInterval`) are not modelled. The delayed halves of an action are separate methods run in sequence: `Dungeon.EnemyTurn`, `ChestShop.FinishOpening`, `BossSummoner.Finish`. Interleavings of React state updates are not modelled either.
- Dates and clocks are parameters, because the calendar arithmetic of `Date` is not modelled. These are today's date key, the weekday, `now`, local midnight, the first weekday and length of a month. Days are taken as 86400000 ms, so daylight-saving shifts are ignored.
- `Math.random()` draws and `crypto.randomUUID()` ids are inputs.
- Progression.AddExp: under penalty it credits the exact seven tenths of the reward rounded down, not what the code's doubles compute (126 rather than 125 for a reward of 180), because the model uses the corrected rounding recorded under Findings.
- Progression.AddExp: requires `maxExp >= 1`, because the source's level-up loop never ends when `maxExp` is 0 or less.
- App.ClearQuestOk: assumes a non-negative quest reward; the form only creates quests with positive rewards.
- Vault.HandleLog: `Number(amount)` is modelled as blank, not a number, or a whole number. Fractional amounts and `Infinity` are not modelled.
- StatusWindow.UpgradeStat: `keyof Stats` also admits `unspentPoints`, but the window offers only the four attributes, so `StatName` has four values.
- Text.Trim: characters are Unicode scalar values, so lengths in `Archive.Preview` count code points where JavaScript counts UTF-16 units.
- Archive.SortNewestFirst: the stability of `Array.prototype.sort` is not stated. The model states newest-first order and permutation only.
- The vault's settings form (`setProfile` for the monthly income) and the date arrows (`changeDate`) are not modelled. The viewed date is an input.
- The text-field setters of the quest modal (`setTitle`, `setDesc`, `setRank`, `setHabitLevel`) are not modelled. They are plain assignments, and `QuestForm.Save` takes whatever the fields hold.
- The rollover carries over only the day of `lastResetDate`. Days skipped entirely earn no allowance, and this is the behaviour as written.
- Dungeon.PlayerAttack and ChestShop.BuyChest check only what the source checks. The battle state and the opening flag are enforced by the disabled buttons, modelled as `AttackEnabled` and `BuyEnabled`.
- Rendering, styling, scrolling, icons, the clock display in the header and the per-cent bars are display only and are left out.

## Findings

| source | as written | input that shows it | evidently intended | confidence | as-written member | corrected member |
|---|---|---|---|---|---|---|
| App.tsx:185 | `Math.floor(amount * 0.7)` with IEEE-754 doubles: 0.7 is slightly below seven tenths, and `180 * 0.7` rounds to 125.99999999999999 | a C-rank quest (reward 180) completed under penalty credits 125 | seven tenths of the reward rounded down, 126 | not executed | Progression.PenaltyRoundsDownAt180 | Progression.PenalisedExp |

