/** The records of the Sovereign app: quests, habits, the hunter's profile,
    ledger entries, journal entries, bosses, dungeon enemies and shop cards.
    Numbers are unbounded integers; strings are sequences of characters;
    a field the source marks optional (`?`) is an Option. */
module Types {

  datatype Option<+T> = None | Some(value: T) {
    /** The value, or `default` when absent (the source's `x || d` / spread default). */
    function GetOr(default: T): T {
      match this
      case Some(v) => v
      case None => default
    }
  }

  /** A calendar-date key `YYYY-MM-DD`; treated as an opaque value. */
  type DateKey = string
  type Id = string

  datatype QuestType = DAILY | SIDE | ROUTINE | WORKOUT | MAIN

  /** Quest and hunter ranks, lowest first. */
  datatype QuestRank = E | D | C | B | A | S

  /** Habit tiers, independent of quest ranks. */
  datatype HabitLevel = TierA | TierB | TierC

  datatype Habit = Habit(id: Id, title: string, level: HabitLevel, completedToday: bool, streak: int)

  datatype Stats = Stats(strength: int, vitality: int, agility: int, intelligence: int, unspentPoints: int)

  /** The attributes the status window offers to upgrade. */
  datatype StatName = Strength | Vitality | Agility | Intelligence

  datatype Boss = Boss(name: string, image: string, hp: int, maxHp: int, rank: QuestRank,
                       defeated: bool, id: Id, createdAt: int)

  datatype Rarity = COMMON | RARE | EPIC | LEGENDARY

  datatype Card = Card(id: Id, name: string, damage: int, manaCost: int, rarity: Rarity, description: string)

  datatype Profile = Profile(
    name: string,
    rank: QuestRank,
    level: int,
    exp: int,
    maxExp: int,
    gold: int,
    coins: int,
    hp: int,
    maxHp: int,
    mana: int,
    maxMana: int,
    inventory: seq<Card>,
    stats: Stats,
    monthlyIncome: int,
    totalSpentThisMonth: int,
    dailySavingsBalance: int,
    lastResetDate: DateKey,
    hasPenalty: bool,
    penaltyExpiry: int,
    lastResetWeek: int,
    currentBoss: Option<Boss>,
    startDate: int,
    lastActiveDate: DateKey,
    missionStreak: int,
    routineStreak: int,
    questsCleared: int,
    habitsCleared: int,
    mainMissionsCleared: int,
    bossKills: int,
    activityHistory: map<DateKey, int>)

  datatype Quest = Quest(id: Id, title: string, description: string, kind: QuestType, rank: QuestRank,
                         rewardExp: int, rewardGold: int, completed: bool, createdAt: int,
                         targetDate: DateKey, isRoutine: bool, isMain: bool,
                         scheduledDays: Option<seq<int>>)

  datatype Transaction = Transaction(id: Id, amount: int, note: string, category: string,
                                     date: int, dateString: DateKey)

  datatype JournalEntry = JournalEntry(id: Id, content: string, date: int, tags: seq<string>)

  datatype Enemy = Enemy(name: string, hp: int, maxHp: int, damage: int, rewardExp: int,
                         rewardGold: int, image: string)

  const InitialStats := Stats(10, 10, 10, 10, 0)

  /** The profile a new hunter starts with; `now` and `today` stand for the
      clock readings taken when the app first loads. */
  function InitialProfile(now: int, today: DateKey): (p: Profile)
    ensures p.level == 1 && p.exp == 0 && p.maxExp == 100 && p.rank == E
    ensures p.hp == p.maxHp == 100 + (p.stats.vitality - 10) * 15
    ensures p.lastResetDate == today && !p.hasPenalty && p.currentBoss.None?
  {
    Profile(
      name := "Hunter Tanpa Nama", rank := E, level := 1, exp := 0, maxExp := 100,
      gold := 0, coins := 0, hp := 100, maxHp := 100, mana := 50, maxMana := 50,
      inventory := [], stats := InitialStats, monthlyIncome := 3000000,
      totalSpentThisMonth := 0, dailySavingsBalance := 0, lastResetDate := today,
      hasPenalty := false, penaltyExpiry := 0, lastResetWeek := -1, currentBoss := None,
      startDate := now, lastActiveDate := today, missionStreak := 0, routineStreak := 0,
      questsCleared := 0, habitsCleared := 0, mainMissionsCleared := 0, bossKills := 0,
      activityHistory := map[])
  }

  function Max(a: int, b: int): int { if a >= b then a else b }
}
