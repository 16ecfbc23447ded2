/** The app shell: the five pieces of state it holds (profile, quests,
    habits, ledger, journal), how they are loaded and saved, and the handlers
    it passes to the sections — day rollover, quest and habit completion,
    expense logging, the journal reward, import and export. Each handler is a
    pure transition on `AppState` with its properties proved, and a method of
    the `Sovereign` class that performs it on the fields. */
module App {
  import opened Types
  import Budget
  import Progression
  import Seqs

  datatype AppState = AppState(profile: Profile, quests: seq<Quest>, habits: seq<Habit>,
                               transactions: seq<Transaction>, journal: seq<JournalEntry>)

  // ---------------------------------------------------------------------------
  // Loading and saving

  /** A profile as read back from storage: any field may be missing. */
  datatype StoredProfile = StoredProfile(
    name: Option<string>,
    rank: Option<QuestRank>,
    level: Option<int>,
    exp: Option<int>,
    maxExp: Option<int>,
    gold: Option<int>,
    coins: Option<int>,
    hp: Option<int>,
    maxHp: Option<int>,
    mana: Option<int>,
    maxMana: Option<int>,
    inventory: Option<seq<Card>>,
    stats: Option<Stats>,
    monthlyIncome: Option<int>,
    totalSpentThisMonth: Option<int>,
    dailySavingsBalance: Option<int>,
    lastResetDate: Option<DateKey>,
    hasPenalty: Option<bool>,
    penaltyExpiry: Option<int>,
    lastResetWeek: Option<int>,
    currentBoss: Option<Boss>,
    startDate: Option<int>,
    lastActiveDate: Option<DateKey>,
    missionStreak: Option<int>,
    routineStreak: Option<int>,
    questsCleared: Option<int>,
    habitsCleared: Option<int>,
    mainMissionsCleared: Option<int>,
    bossKills: Option<int>,
    activityHistory: Option<map<DateKey, int>>)
  /** Every field present (what saving a profile writes; an absent boss is omitted). */
  function StoreProfile(p: Profile): StoredProfile {
    StoredProfile(
      name := Some(p.name),
      rank := Some(p.rank),
      level := Some(p.level),
      exp := Some(p.exp),
      maxExp := Some(p.maxExp),
      gold := Some(p.gold),
      coins := Some(p.coins),
      hp := Some(p.hp),
      maxHp := Some(p.maxHp),
      mana := Some(p.mana),
      maxMana := Some(p.maxMana),
      inventory := Some(p.inventory),
      stats := Some(p.stats),
      monthlyIncome := Some(p.monthlyIncome),
      totalSpentThisMonth := Some(p.totalSpentThisMonth),
      dailySavingsBalance := Some(p.dailySavingsBalance),
      lastResetDate := Some(p.lastResetDate),
      hasPenalty := Some(p.hasPenalty),
      penaltyExpiry := Some(p.penaltyExpiry),
      lastResetWeek := Some(p.lastResetWeek),
      currentBoss := p.currentBoss,
      startDate := Some(p.startDate),
      lastActiveDate := Some(p.lastActiveDate),
      missionStreak := Some(p.missionStreak),
      routineStreak := Some(p.routineStreak),
      questsCleared := Some(p.questsCleared),
      habitsCleared := Some(p.habitsCleared),
      mainMissionsCleared := Some(p.mainMissionsCleared),
      bossKills := Some(p.bossKills),
      activityHistory := Some(p.activityHistory))
  }

  /** `{ ...defaults, ...stored }`: each stored field wins, each missing one
      falls back to the default. */
  function WithDefaults(s: StoredProfile, d: Profile): Profile {
    Profile(
      name := s.name.GetOr(d.name),
      rank := s.rank.GetOr(d.rank),
      level := s.level.GetOr(d.level),
      exp := s.exp.GetOr(d.exp),
      maxExp := s.maxExp.GetOr(d.maxExp),
      gold := s.gold.GetOr(d.gold),
      coins := s.coins.GetOr(d.coins),
      hp := s.hp.GetOr(d.hp),
      maxHp := s.maxHp.GetOr(d.maxHp),
      mana := s.mana.GetOr(d.mana),
      maxMana := s.maxMana.GetOr(d.maxMana),
      inventory := s.inventory.GetOr(d.inventory),
      stats := s.stats.GetOr(d.stats),
      monthlyIncome := s.monthlyIncome.GetOr(d.monthlyIncome),
      totalSpentThisMonth := s.totalSpentThisMonth.GetOr(d.totalSpentThisMonth),
      dailySavingsBalance := s.dailySavingsBalance.GetOr(d.dailySavingsBalance),
      lastResetDate := s.lastResetDate.GetOr(d.lastResetDate),
      hasPenalty := s.hasPenalty.GetOr(d.hasPenalty),
      penaltyExpiry := s.penaltyExpiry.GetOr(d.penaltyExpiry),
      lastResetWeek := s.lastResetWeek.GetOr(d.lastResetWeek),
      currentBoss := if s.currentBoss.Some? then s.currentBoss else d.currentBoss,
      startDate := s.startDate.GetOr(d.startDate),
      lastActiveDate := s.lastActiveDate.GetOr(d.lastActiveDate),
      missionStreak := s.missionStreak.GetOr(d.missionStreak),
      routineStreak := s.routineStreak.GetOr(d.routineStreak),
      questsCleared := s.questsCleared.GetOr(d.questsCleared),
      habitsCleared := s.habitsCleared.GetOr(d.habitsCleared),
      mainMissionsCleared := s.mainMissionsCleared.GetOr(d.mainMissionsCleared),
      bossKills := s.bossKills.GetOr(d.bossKills),
      activityHistory := s.activityHistory.GetOr(d.activityHistory))
  }

  /** The five storage entries; `None` for an entry that is not there. */
  datatype Saved = Saved(profile: Option<StoredProfile>, quests: Option<seq<Quest>>,
                         habits: Option<seq<Habit>>, transactions: Option<seq<Transaction>>,
                         journal: Option<seq<JournalEntry>>)

  /** The state the app starts from: the stored profile over the initial
      one, each list as stored or empty. */
  function Restore(saved: Saved, now: int, today: DateKey): AppState {
    var init := InitialProfile(now, today);
    AppState(
      if saved.profile.Some? then WithDefaults(saved.profile.value, init) else init,
      saved.quests.GetOr([]), saved.habits.GetOr([]),
      saved.transactions.GetOr([]), saved.journal.GetOr([]))
  }

  /** What the save effect writes after every change. */
  function Store(s: AppState): Saved {
    Saved(Some(StoreProfile(s.profile)), Some(s.quests), Some(s.habits),
          Some(s.transactions), Some(s.journal))
  }

  /** A stored field always beats the default; a missing one yields the default. */
  lemma WithDefaultsFields(s: StoredProfile, d: Profile)
    ensures var p := WithDefaults(s, d);
      && (s.level.Some? ==> p.level == s.level.value) && (s.level.None? ==> p.level == d.level)
      && (s.exp.Some? ==> p.exp == s.exp.value) && (s.exp.None? ==> p.exp == d.exp)
      && (s.maxExp.Some? ==> p.maxExp == s.maxExp.value) && (s.maxExp.None? ==> p.maxExp == d.maxExp)
      && (s.currentBoss.Some? ==> p.currentBoss == s.currentBoss)
      && (s.currentBoss.None? ==> p.currentBoss == d.currentBoss)
  {
  }

  /** Saving and then loading gives back exactly the saved state, whatever
      the clock says at load time; with nothing stored, the app starts from
      the initial profile and empty lists. */
  lemma RestoreStore(s: AppState, now: int, today: DateKey)
    ensures Restore(Store(s), now, today) == s
    ensures Restore(Saved(None, None, None, None, None), now, today)
         == AppState(InitialProfile(now, today), [], [], [], [])
  {
  }

  // ---------------------------------------------------------------------------
  // Import and export

  /** A parsed backup file: each of the five keys may be missing, and the
      export time may be too. */
  datatype Backup = Backup(profile: Option<Profile>, quests: Option<seq<Quest>>,
                           habits: Option<seq<Habit>>, transactions: Option<seq<Transaction>>,
                           journal: Option<seq<JournalEntry>>, timestamp: Option<int>)

  /** The export snapshot, stamped with the export time. */
  function Snapshot(s: AppState, now: int): Backup {
    Backup(Some(s.profile), Some(s.quests), Some(s.habits), Some(s.transactions),
           Some(s.journal), Some(now))
  }

  /** Importing: `None` is a file that failed to parse and changes nothing;
      otherwise each key present replaces that piece of state wholesale. */
  function Imported(s: AppState, parsed: Option<Backup>): AppState {
    match parsed
    case None => s
    case Some(b) =>
      AppState(b.profile.GetOr(s.profile), b.quests.GetOr(s.quests), b.habits.GetOr(s.habits),
               b.transactions.GetOr(s.transactions), b.journal.GetOr(s.journal))
  }

  /** Import restores an export, whatever the state it is imported into; a
      failed parse and a file without any of the keys leave the state as it was. */
  lemma ImportSnapshot(s: AppState, current: AppState, now: int, t: Option<int>)
    ensures Imported(current, Some(Snapshot(s, now))) == s
    ensures Imported(current, None) == current
    ensures Imported(current, Some(Backup(None, None, None, None, None, t))) == current
  {
  }

  /** Each key is handled on its own: a present key replaces exactly its own
      piece of state and an absent key keeps it. */
  lemma ImportPerKey(s: AppState, b: Backup)
    ensures var r := Imported(s, Some(b));
      && r.profile == (if b.profile.Some? then b.profile.value else s.profile)
      && r.quests == (if b.quests.Some? then b.quests.value else s.quests)
      && r.habits == (if b.habits.Some? then b.habits.value else s.habits)
      && r.transactions == (if b.transactions.Some? then b.transactions.value else s.transactions)
      && r.journal == (if b.journal.Some? then b.journal.value else s.journal)
  {
  }

  // ---------------------------------------------------------------------------
  // Day rollover

  /** Every habit, un-ticked for the new day. */
  function ResetHabits(hs: seq<Habit>): (r: seq<Habit>)
    ensures |r| == |hs|
    ensures forall i :: 0 <= i < |hs| ==> r[i] == hs[i].(completedToday := false)
  {
    seq(|hs|, i requires 0 <= i < |hs| => hs[i].(completedToday := false))
  }

  /** The carryover after the day keyed `yesterday`: that day's whole limit
      minus what was spent on it. */
  function Carryover(p: Profile, ts: seq<Transaction>, yesterday: DateKey): int {
    Budget.LimitToday(p.monthlyIncome, p.dailySavingsBalance) - Budget.SpentOn(ts, yesterday)
  }

  /** The rollover effect: on a new date key, carry the last reset day's
      leftover (possibly negative) into the balance, derive the penalty from
      the new limit, move both date stamps and un-tick every habit. */
  function DayRollover(s: AppState, today: DateKey): AppState {
    var p := s.profile;
    if p.lastResetDate == today then s
    else
      var balance := Carryover(p, s.transactions, p.lastResetDate);
      s.(profile := p.(lastResetDate := today, lastActiveDate := today, dailySavingsBalance := balance,
                       hasPenalty := Budget.LimitToday(p.monthlyIncome, balance) < 0),
         habits := ResetHabits(s.habits))
  }

  /** What a rollover does: nothing on the same date; otherwise the balance
      becomes yesterday's limit minus yesterday's spending, the penalty holds
      exactly when the new limit is negative, each habit keeps its id, title,
      level, streak and place and only loses its tick, and quests, ledger and
      journal are untouched. It fires once per date. */
  lemma RolloverEffects(s: AppState, today: DateKey)
    ensures var r := DayRollover(s, today); var p := s.profile;
      && r.profile.lastResetDate == today
      && r.quests == s.quests && r.transactions == s.transactions && r.journal == s.journal
      && (p.lastResetDate == today ==> r == s)
      && (p.lastResetDate != today ==>
            && r.profile.dailySavingsBalance
               == Budget.StandardDaily(p.monthlyIncome) + p.dailySavingsBalance
                  - Budget.SpentOn(s.transactions, p.lastResetDate)
            && (r.profile.hasPenalty <==>
                  Budget.LimitToday(p.monthlyIncome, r.profile.dailySavingsBalance) < 0)
            && |r.habits| == |s.habits|
            && (forall i :: 0 <= i < |s.habits| ==>
                  && !r.habits[i].completedToday
                  && r.habits[i].id == s.habits[i].id && r.habits[i].title == s.habits[i].title
                  && r.habits[i].level == s.habits[i].level && r.habits[i].streak == s.habits[i].streak)
            && r.profile == p.(lastResetDate := today, lastActiveDate := today,
                               dailySavingsBalance := r.profile.dailySavingsBalance,
                               hasPenalty := r.profile.hasPenalty))
      && DayRollover(r, today) == r
  {
  }

  /** A day kept within its limit leaves a carryover that is not negative,
      so with a non-negative income the new day starts without a penalty. */
  lemma RolloverWithinLimit(s: AppState, today: DateKey)
    requires s.profile.lastResetDate != today && s.profile.monthlyIncome >= 0
    requires Budget.SpentOn(s.transactions, s.profile.lastResetDate)
             <= Budget.LimitToday(s.profile.monthlyIncome, s.profile.dailySavingsBalance)
    ensures DayRollover(s, today).profile.dailySavingsBalance >= 0
    ensures !DayRollover(s, today).profile.hasPenalty
  {
  }

  // ---------------------------------------------------------------------------
  // Expenses

  /** Whether today's spending including `amount` exceeds today's limit. */
  function IsOver(s: AppState, amount: int, today: DateKey): bool {
    Budget.SpentOn(s.transactions, today) + amount
      > Budget.LimitToday(s.profile.monthlyIncome, s.profile.dailySavingsBalance)
  }

  /** The expense handler: prepend a transaction dated today, add the amount
      to the month's total, set the penalty to whether today is now over the
      limit, and cost 10 HP (never below 1) when it is. */
  function ExpenseLogged(s: AppState, amount: int, note: string, category: string,
                         txId: Id, now: int, today: DateKey): AppState
  {
    var over := IsOver(s, amount, today);
    var p := s.profile;
    s.(transactions := [Transaction(txId, amount, note, category, now, today)] + s.transactions,
       profile := p.(totalSpentThisMonth := p.totalSpentThisMonth + amount, hasPenalty := over,
                     hp := if over then Max(1, p.hp - 10) else p.hp))
  }

  /** The verdict agrees with the ledger after the expense: over exactly when
      today's total there exceeds the limit. The penalty follows the verdict
      both ways (it clears on an expense within the limit); HP drops by 10 but
      not below 1 only when over; the month's total grows by the amount; only
      the ledger and the profile change. */
  lemma ExpenseEffects(s: AppState, amount: int, note: string, category: string,
                       txId: Id, now: int, today: DateKey)
    ensures var r := ExpenseLogged(s, amount, note, category, txId, now, today);
      var over := IsOver(s, amount, today);
      var p := s.profile;
      && (over <==> Budget.SpentOn(r.transactions, today)
                    > Budget.LimitToday(p.monthlyIncome, p.dailySavingsBalance))
      && |r.transactions| == |s.transactions| + 1 && r.transactions[1..] == s.transactions
      && r.transactions[0].amount == amount && r.transactions[0].dateString == today
      && r.profile.hasPenalty == over
      && r.profile.totalSpentThisMonth == p.totalSpentThisMonth + amount
      && (!over ==> r.profile.hp == p.hp)
      && (over ==> r.profile.hp == Max(1, p.hp - 10))
      && (over ==> r.profile.hp >= 1 && (p.hp >= 1 ==> r.profile.hp <= p.hp))
      && r.quests == s.quests && r.habits == s.habits && r.journal == s.journal
      && r.profile == p.(totalSpentThisMonth := r.profile.totalSpentThisMonth,
                         hasPenalty := over, hp := r.profile.hp)
  {
    var r := ExpenseLogged(s, amount, note, category, txId, now, today);
    Budget.SpentOnPrepend(r.transactions[0], s.transactions, today);
    assert r.transactions == [r.transactions[0]] + s.transactions;
  }

  // ---------------------------------------------------------------------------
  // Completing quests and habits

  /** `quests.find(x => x.id === id)`. */
  function FindQuest(qs: seq<Quest>, id: Id): Option<Quest> {
    Seqs.Find(qs, (q: Quest) => q.id == id)
  }

  /** `habits.find(x => x.id === id)`. */
  function FindHabit(hs: seq<Habit>, id: Id): Option<Habit> {
    Seqs.Find(hs, (h: Habit) => h.id == id)
  }

  /** Every quest carrying the id, marked completed; the rest as they were. */
  function MarkCompleted(qs: seq<Quest>, id: Id): (r: seq<Quest>)
    ensures |r| == |qs|
    ensures forall i :: 0 <= i < |qs| ==> r[i] == if qs[i].id == id then qs[i].(completed := true) else qs[i]
  {
    seq(|qs|, i requires 0 <= i < |qs| => if qs[i].id == id then qs[i].(completed := true) else qs[i])
  }

  /** Every habit carrying the id, ticked with its streak one longer. */
  function MarkHabitDone(hs: seq<Habit>, id: Id): (r: seq<Habit>)
    ensures |r| == |hs|
    ensures forall i :: 0 <= i < |hs| ==>
      r[i] == if hs[i].id == id then hs[i].(completedToday := true, streak := hs[i].streak + 1) else hs[i]
  {
    seq(|hs|, i requires 0 <= i < |hs| =>
      if hs[i].id == id then hs[i].(completedToday := true, streak := hs[i].streak + 1) else hs[i])
  }

  /** The profile updates a quest clearance queues, in order: experience,
      boss damage at the quest's rank, the activity count, then gold and the
      clearance counters. */
  function ClearQuest(p: Profile, q: Quest, today: DateKey): Profile
    requires p.maxExp >= 1
  {
    var p1 := Progression.RecordActivity(Progression.DamageBoss(Progression.GainExp(p, q.rewardExp), q.rank), today);
    p1.(gold := p1.gold + q.rewardGold, questsCleared := p1.questsCleared + 1,
        mainMissionsCleared := if q.isMain then p1.mainMissionsCleared + 1 else p1.mainMissionsCleared)
  }

  /** The quest-completion handler: nothing unless the quest exists and is not yet completed. */
  function QuestCompleted(s: AppState, id: Id, today: DateKey): AppState
    requires s.profile.maxExp >= 1
  {
    match FindQuest(s.quests, id)
    case None => s
    case Some(q) =>
      if q.completed then s
      else s.(quests := MarkCompleted(s.quests, id), profile := ClearQuest(s.profile, q, today))
  }

  /** Boss damage rank for a habit tier: A hits like a B-rank quest, B like D, C like E. */
  function HabitRank(level: HabitLevel): QuestRank {
    match level case TierA => B case TierB => D case TierC => E
  }

  /** Experience for a habit tier. */
  function HabitExp(level: HabitLevel): int {
    match level case TierA => 50 case TierB => 20 case TierC => 10
  }

  /** The profile updates a habit tick queues: boss damage, experience, the
      activity count, then the habit counter. */
  function ClearHabit(p: Profile, h: Habit, today: DateKey): Profile
    requires p.maxExp >= 1
  {
    var d := Progression.DamageBoss(p, HabitRank(h.level));
    var p1 := Progression.RecordActivity(Progression.GainExp(d, HabitExp(h.level)), today);
    p1.(habitsCleared := p1.habitsCleared + 1)
  }

  /** The habit-completion handler: nothing unless the habit exists and is not yet ticked today. */
  function HabitCompleted(s: AppState, id: Id, today: DateKey): AppState
    requires s.profile.maxExp >= 1
  {
    match FindHabit(s.habits, id)
    case None => s
    case Some(h) =>
      if h.completedToday then s
      else s.(habits := MarkHabitDone(s.habits, id), profile := ClearHabit(s.profile, h, today))
  }

  /** The invariants of a profile the app keeps: a positive threshold, the
      experience normalised below it, the rank its level calls for, and a
      well-formed boss if any. The initial profile has them. */
  predicate ProfileOk(p: Profile) {
    && p.maxExp >= 1 && 0 <= p.exp < p.maxExp
    && Progression.RankConsistent(p)
    && (p.currentBoss.Some? ==> Progression.BossWellFormed(p.currentBoss.value))
  }

  lemma InitialProfileOk(now: int, today: DateKey)
    ensures ProfileOk(InitialProfile(now, today))
  {
  }

  /** The profile steps of a clearance keep the invariants (for a reward that
      is not negative), leave the level no lower, and count the day. */
  lemma ClearQuestOk(p: Profile, q: Quest, today: DateKey)
    requires ProfileOk(p) && q.rewardExp >= 0
    ensures var r := ClearQuest(p, q, today);
      && ProfileOk(r) && r.level >= p.level
      && r.gold == p.gold + q.rewardGold
      && r.questsCleared == p.questsCleared + 1
      && (r.mainMissionsCleared == p.mainMissionsCleared + 1 <==> q.isMain)
      && r.mainMissionsCleared - p.mainMissionsCleared in {0, 1}
      && r.habitsCleared == p.habitsCleared
      && today in r.activityHistory
      && r.activityHistory[today] == (if today in p.activityHistory then p.activityHistory[today] else 0) + 1
  {
    Progression.GainExpEffects(p, q.rewardExp);
    var g := Progression.GainExp(p, q.rewardExp);
    if g.currentBoss.Some? {
      Progression.DamageBossEffects(g, q.rank);
    }
  }

  lemma ClearHabitOk(p: Profile, h: Habit, today: DateKey)
    requires ProfileOk(p)
    ensures var r := ClearHabit(p, h, today);
      && ProfileOk(r) && r.level >= p.level
      && r.habitsCleared == p.habitsCleared + 1
      && r.questsCleared == p.questsCleared && r.gold == p.gold
      && today in r.activityHistory
      && r.activityHistory[today] == (if today in p.activityHistory then p.activityHistory[today] else 0) + 1
  {
    var d := Progression.DamageBoss(p, HabitRank(h.level));
    if p.currentBoss.Some? {
      Progression.DamageBossEffects(p, HabitRank(h.level));
    }
    Progression.GainExpEffects(d, HabitExp(h.level));
  }

  /** Completing a quest: a missing or already completed quest changes
      nothing; otherwise every quest with the id is completed and every other
      quest is as it was, the profile takes the clearance, and completing it
      again is a no-op. */
  lemma QuestCompletedEffects(s: AppState, id: Id, today: DateKey)
    requires s.profile.maxExp >= 1
    ensures var r := QuestCompleted(s, id, today); var f := FindQuest(s.quests, id);
      && (f.None? || f.value.completed ==> r == s)
      && (f.Some? && !f.value.completed ==>
            && |r.quests| == |s.quests|
            && (forall i :: 0 <= i < |s.quests| ==>
                  r.quests[i] == if s.quests[i].id == id then s.quests[i].(completed := true) else s.quests[i])
            && r.profile == ClearQuest(s.profile, f.value, today)
            && r.habits == s.habits && r.transactions == s.transactions && r.journal == s.journal)
      && (r.profile.maxExp >= 1 ==> QuestCompleted(r, id, today) == r)
  {
    var r := QuestCompleted(s, id, today);
    var f := FindQuest(s.quests, id);
    if f.Some? && !f.value.completed {
      FoundCompleted(r.quests, id);
    }
  }

  /** After marking, the first quest with the id is a completed one. */
  lemma FoundCompleted(qs: seq<Quest>, id: Id)
    requires forall i :: 0 <= i < |qs| && qs[i].id == id ==> qs[i].completed
    ensures FindQuest(qs, id).None? || FindQuest(qs, id).value.completed
  {
  }

  lemma HabitCompletedEffects(s: AppState, id: Id, today: DateKey)
    requires s.profile.maxExp >= 1
    ensures var r := HabitCompleted(s, id, today); var f := FindHabit(s.habits, id);
      && (f.None? || f.value.completedToday ==> r == s)
      && (f.Some? && !f.value.completedToday ==>
            && |r.habits| == |s.habits|
            && (forall i :: 0 <= i < |s.habits| ==>
                  r.habits[i] == if s.habits[i].id == id
                                 then s.habits[i].(completedToday := true, streak := s.habits[i].streak + 1)
                                 else s.habits[i])
            && r.profile == ClearHabit(s.profile, f.value, today)
            && r.quests == s.quests && r.transactions == s.transactions && r.journal == s.journal)
      && (r.profile.maxExp >= 1 ==> HabitCompleted(r, id, today) == r)
  {
  }

  // ---------------------------------------------------------------------------
  // Journal reward

  /** The reward for a journal entry: 20 experience and one activity count. */
  function EntryRewarded(s: AppState, today: DateKey): AppState
    requires s.profile.maxExp >= 1
  {
    s.(profile := Progression.RecordActivity(Progression.GainExp(s.profile, 20), today))
  }

  // ---------------------------------------------------------------------------
  // The component

  class Sovereign {
    var profile: Profile
    var quests: seq<Quest>
    var habits: seq<Habit>
    var transactions: seq<Transaction>
    var journal: seq<JournalEntry>

    function State(): AppState
      reads this
    {
      AppState(profile, quests, habits, transactions, journal)
    }

    /** Mounting: each piece of state initialised from its storage entry. */
    constructor Load(saved: Saved, now: int, today: DateKey)
      ensures State() == Restore(saved, now, today)
    {
      var init := InitialProfile(now, today);
      if saved.profile.Some? {
        profile := WithDefaults(saved.profile.value, init);
      } else {
        profile := init;
      }
      quests := saved.quests.GetOr([]);
      habits := saved.habits.GetOr([]);
      transactions := saved.transactions.GetOr([]);
      journal := saved.journal.GetOr([]);
    }

    /** The save effect: what it writes to storage. */
    method Persist() returns (saved: Saved)
      ensures saved == Store(State())
    {
      saved := Saved(Some(StoreProfile(profile)), Some(quests), Some(habits),
                     Some(transactions), Some(journal));
    }

    /** The rollover effect, run with the current date key. */
    method RollOver(today: DateKey)
      modifies this
      ensures State() == DayRollover(old(State()), today)
    {
      if profile.lastResetDate != today {
        var yesterday := profile.lastResetDate;
        var spentYesterday := Budget.SpentOn(transactions, yesterday);
        var standardDaily := Budget.StandardDaily(profile.monthlyIncome);
        var newSavingsBalance := (standardDaily + profile.dailySavingsBalance) - spentYesterday;
        profile := profile.(lastResetDate := today, lastActiveDate := today,
                            dailySavingsBalance := newSavingsBalance,
                            hasPenalty := standardDaily + newSavingsBalance < 0);
        habits := ResetHabits(habits);
      }
    }

    /** `onCompleteQuest(id)`. */
    method CompleteQuest(id: Id, today: DateKey)
      requires profile.maxExp >= 1
      modifies this
      ensures State() == QuestCompleted(old(State()), id, today)
    {
      var found := FindQuest(quests, id);
      if found.Some? && !found.value.completed {
        var q := found.value;
        quests := MarkCompleted(quests, id);
        profile := Progression.AddExp(profile, q.rewardExp);
        profile := Progression.DamageBoss(profile, q.rank);
        profile := Progression.RecordActivity(profile, today);
        profile := profile.(gold := profile.gold + q.rewardGold,
                            questsCleared := profile.questsCleared + 1,
                            mainMissionsCleared := if q.isMain then profile.mainMissionsCleared + 1
                                                   else profile.mainMissionsCleared);
      }
    }

    /** `onCompleteHabit(id)`. */
    method CompleteHabit(id: Id, today: DateKey)
      requires profile.maxExp >= 1
      modifies this
      ensures State() == HabitCompleted(old(State()), id, today)
    {
      var found := FindHabit(habits, id);
      if found.Some? && !found.value.completedToday {
        var h := found.value;
        habits := MarkHabitDone(habits, id);
        profile := Progression.DamageBoss(profile, HabitRank(h.level));
        profile := Progression.AddExp(profile, HabitExp(h.level));
        profile := Progression.RecordActivity(profile, today);
        profile := profile.(habitsCleared := profile.habitsCleared + 1);
      }
    }

    /** `onExpense(amount, note, category)`; the new transaction's id and the
        clock reading are inputs. Returns whether today is over the limit. */
    method LogExpense(amount: int, note: string, category: string, txId: Id, now: int, today: DateKey)
      returns (isOver: bool)
      modifies this
      ensures isOver == IsOver(old(State()), amount, today)
      ensures State() == ExpenseLogged(old(State()), amount, note, category, txId, now, today)
    {
      var newTx := Transaction(txId, amount, note, category, now, today);
      var standardDaily := Budget.StandardDaily(profile.monthlyIncome);
      var limitToday := standardDaily + profile.dailySavingsBalance;
      var totalSpentToday := Budget.SpentOn(transactions, today) + amount;
      transactions := [newTx] + transactions;
      isOver := totalSpentToday > limitToday;
      profile := profile.(totalSpentThisMonth := profile.totalSpentThisMonth + amount,
                          hasPenalty := isOver,
                          hp := if isOver then Max(1, profile.hp - 10) else profile.hp);
    }

    /** `onEntryReward()`, called by the journal once per saved entry. */
    method RewardEntry(today: DateKey)
      requires profile.maxExp >= 1
      modifies this
      ensures State() == EntryRewarded(old(State()), today)
    {
      profile := Progression.AddExp(profile, 20);
      profile := Progression.RecordActivity(profile, today);
    }

    /** `handleImportData` once the file is read; `None` when it did not parse. */
    method ImportData(parsed: Option<Backup>)
      modifies this
      ensures State() == Imported(old(State()), parsed)
    {
      if parsed.Some? {
        var data := parsed.value;
        if data.profile.Some? { profile := data.profile.value; }
        if data.quests.Some? { quests := data.quests.value; }
        if data.habits.Some? { habits := data.habits.value; }
        if data.transactions.Some? { transactions := data.transactions.value; }
        if data.journal.Some? { journal := data.journal.value; }
      }
    }

    /** `handleExportData`: the snapshot that is written to the download. */
    method ExportData(now: int) returns (data: Backup)
      ensures data == Snapshot(State(), now)
    {
      data := Backup(Some(profile), Some(quests), Some(habits), Some(transactions),
                     Some(journal), Some(now));
    }
  }
}
