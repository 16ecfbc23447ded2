/** The progression engine of the app shell: experience and levelling
    (`addExp`), rank thresholds, boss damage (`damageBoss`) and the activity
    counter (`recordActivity`). Each is a state updater `prev => next` on the
    profile; here each is a function from the old profile to the new one. */
module Progression {
  import opened Types

  // ---------------------------------------------------------------------------
  // Experience

  /** The 30% experience penalty while in debt: the largest integer not above
      seven tenths of `amount`, i.e. `Math.floor(amount * 0.7)` evaluated exactly. */
  function PenalisedExp(amount: int): (r: int)
    ensures 10 * r <= 7 * amount < 10 * r + 10
  {
    amount * 7 / 10
  }

  /** What `addExp(amount)` credits: the whole amount, or seven tenths of it
      rounded down under penalty. This is the corrected rounding; the source's
      double-precision product is `PenalisedExpAsWritten`. */
  function CreditedExp(hasPenalty: bool, amount: int): int {
    if hasPenalty then PenalisedExp(amount) else amount
  }

  /** `Math.floor(maxExp * 1.2)`: the next level's threshold. */
  function NextMaxExp(m: int): (r: int)
    requires m >= 1
    ensures m <= r && 5 * r <= 6 * m < 5 * r + 5
  {
    m * 6 / 5
  }

  /** The threshold after `k` level-ups starting from threshold `m`. */
  function Grow(m: int, k: nat): (r: int)
    requires m >= 1
    ensures r >= m
    decreases k
  {
    if k == 0 then m else Grow(NextMaxExp(m), k - 1)
  }

  /** The experience consumed by `k` level-ups starting from threshold `m`. */
  function Cost(m: int, k: nat): int
    requires m >= 1
    decreases k
  {
    if k == 0 then 0 else m + Cost(NextMaxExp(m), k - 1)
  }

  datatype Levels = Levels(exp: int, level: int, maxExp: int, unspentPoints: int)

  /** The level-up loop of `addExp`: while the experience reaches the
      threshold, pay the threshold, gain a level and five points, and raise
      the threshold by a fifth. */
  function Settle(exp: int, level: int, maxExp: int, points: int): Levels
    requires maxExp >= 1
    decreases exp
  {
    if exp < maxExp then Levels(exp, level, maxExp, points)
    else Settle(exp - maxExp, level + 1, NextMaxExp(maxExp), points + 5)
  }

  /** What the loop leaves behind, stated without the loop: after `k` level-ups
      the threshold is `Grow(maxExp, k)`, the points grew by `5k`, exactly
      `Cost(maxExp, k)` experience was spent, and the rest is below the threshold
      (and not negative when the experience was not). */
  lemma {:induction false} SettleSpec(exp: int, level: int, maxExp: int, points: int)
    requires maxExp >= 1
    ensures var r := Settle(exp, level, maxExp, points);
      && r.level >= level
      && r.maxExp == Grow(maxExp, r.level - level)
      && r.unspentPoints == points + 5 * (r.level - level)
      && r.exp == exp - Cost(maxExp, r.level - level)
      && r.exp < r.maxExp
      && (exp >= 0 ==> r.exp >= 0)
    decreases exp
  {
    if exp >= maxExp {
      SettleSpec(exp - maxExp, level + 1, NextMaxExp(maxExp), points + 5);
    }
  }

  // ---------------------------------------------------------------------------
  // Ranks

  function RankIndex(r: QuestRank): nat {
    match r
    case E => 0 case D => 1 case C => 2 case B => 3 case A => 4 case S => 5
  }

  /** The lowest level of each rank band. */
  function MinLevel(r: QuestRank): int {
    match r
    case E => 1 case D => 10 case C => 25 case B => 40 case A => 60 case S => 80
  }

  function NextRank(r: QuestRank): QuestRank
    requires r != S
  {
    match r
    case E => D case D => C case C => B case B => A case A => S
  }

  /** The rank chain of `addExp`: from level 10 on, the band the level falls
      in; below level 10 the previous rank is kept. */
  function RankAfter(level: int, prev: QuestRank): (r: QuestRank)
    ensures level < 10 ==> r == prev
    ensures level >= 10 ==> MinLevel(r) <= level && (r == S || level < MinLevel(NextRank(r)))
  {
    if level >= 80 then S
    else if level >= 60 then A
    else if level >= 40 then B
    else if level >= 25 then C
    else if level >= 10 then D
    else prev
  }

  /** A profile whose rank is the one its level calls for (true of the
      initial profile, rank E at level 1). */
  predicate RankConsistent(p: Profile) {
    p.rank == RankAfter(p.level, E)
  }

  /** Rank never drops as the level rises. */
  lemma RankMonotone(l1: int, l2: int)
    requires l1 <= l2
    ensures RankIndex(RankAfter(l1, E)) <= RankIndex(RankAfter(l2, E))
  {
  }

  // ---------------------------------------------------------------------------
  // addExp

  /** The profile `addExp(amount)` produces. */
  function GainExp(p: Profile, amount: int): Profile
    requires p.maxExp >= 1
  {
    var s := Settle(p.exp + CreditedExp(p.hasPenalty, amount), p.level, p.maxExp, p.stats.unspentPoints);
    p.(level := s.level, exp := s.exp, maxExp := s.maxExp, rank := RankAfter(s.level, p.rank),
       stats := p.stats.(unspentPoints := s.unspentPoints))
  }

  /** `addExp` with the source's loop: credit (reduced under penalty, with the
      corrected rounding of `PenalisedExp`), then level up in a loop, then
      recompute the rank. The source's loop does not
      terminate when `maxExp <= 0`, hence the precondition. */
  method AddExp(p: Profile, amount: int) returns (q: Profile)
    requires p.maxExp >= 1
    ensures q == GainExp(p, amount)
  {
    var finalAmount := if p.hasPenalty then PenalisedExp(amount) else amount;
    var newExp := p.exp + finalAmount;
    var newLevel := p.level;
    var newMaxExp := p.maxExp;
    var newUnspentPoints := p.stats.unspentPoints;
    ghost var start := Settle(newExp, newLevel, newMaxExp, newUnspentPoints);
    while newExp >= newMaxExp
      invariant newMaxExp >= 1
      invariant Settle(newExp, newLevel, newMaxExp, newUnspentPoints) == start
      decreases newExp
    {
      newExp := newExp - newMaxExp;
      newLevel := newLevel + 1;
      newMaxExp := NextMaxExp(newMaxExp);
      newUnspentPoints := newUnspentPoints + 5;
    }
    var newRank := p.rank;
    if newLevel >= 80 { newRank := S; }
    else if newLevel >= 60 { newRank := A; }
    else if newLevel >= 40 { newRank := B; }
    else if newLevel >= 25 { newRank := C; }
    else if newLevel >= 10 { newRank := D; }
    q := p.(level := newLevel, exp := newExp, maxExp := newMaxExp, rank := newRank,
            stats := p.stats.(unspentPoints := newUnspentPoints));
  }

  /** What `addExp` guarantees: the experience ends normalised below the
      threshold, each level-up is worth exactly one level and five points and
      multiplies the threshold by 1.2 (rounded down), the credited experience
      is accounted for exactly, a consistent rank stays consistent, and
      nothing else in the profile changes. */
  lemma GainExpEffects(p: Profile, amount: int)
    requires p.maxExp >= 1 && p.exp >= 0 && amount >= 0
    ensures var q := GainExp(p, amount); var k := q.level - p.level;
      && 0 <= q.exp < q.maxExp
      && k >= 0
      && q.maxExp == Grow(p.maxExp, k)
      && q.stats.unspentPoints == p.stats.unspentPoints + 5 * k
      && q.exp + Cost(p.maxExp, k) == p.exp + CreditedExp(p.hasPenalty, amount)
      && (RankConsistent(p) ==> RankConsistent(q))
      && q.stats.(unspentPoints := p.stats.unspentPoints) == p.stats
      && q.(level := p.level, exp := p.exp, maxExp := p.maxExp, rank := p.rank, stats := p.stats) == p
  {
    SettleSpec(p.exp + CreditedExp(p.hasPenalty, amount), p.level, p.maxExp, p.stats.unspentPoints);
  }

  // ---------------------------------------------------------------------------
  // damageBoss

  /** Boss damage per quest rank. */
  function BaseDamage(rank: QuestRank): int {
    match rank
    case E => 20 case D => 50 case C => 150 case B => 400 case A => 1000 case S => 3000
  }

  /** Damage dealt, halved under penalty; every table entry is even, so the
      source's `damage * 0.5` is always a whole number. */
  function BossDamage(rank: QuestRank, hasPenalty: bool): (r: int)
    ensures r > 0
    ensures if hasPenalty then 2 * r == BaseDamage(rank) else r == BaseDamage(rank)
  {
    if hasPenalty then BaseDamage(rank) / 2 else BaseDamage(rank)
  }

  /** The profile `damageBoss(rank)` produces. */
  function DamageBoss(p: Profile, rank: QuestRank): Profile {
    match p.currentBoss
    case None => p
    case Some(b) =>
      var hp := Max(0, b.hp - BossDamage(rank, p.hasPenalty));
      p.(bossKills := if hp == 0 && !b.defeated then p.bossKills + 1 else p.bossKills,
         currentBoss := Some(b.(hp := hp, defeated := hp == 0)))
  }

  /** A boss as the app keeps it: hit points not negative, defeated exactly at zero. */
  predicate BossWellFormed(b: Boss) {
    b.hp >= 0 && (b.defeated <==> b.hp == 0)
  }

  /** One hit: hit points never rise, the boss stays well formed, the kill
      counter moves only when a live boss drops to zero, and the hit changes
      nothing but the boss's hit points and flag and the counter. A hit on a
      dead boss changes nothing at all. */
  lemma DamageBossEffects(p: Profile, rank: QuestRank)
    requires p.currentBoss.Some? && BossWellFormed(p.currentBoss.value)
    ensures var q := DamageBoss(p, rank); var b := p.currentBoss.value;
      && q.currentBoss.Some?
      && var b' := q.currentBoss.value;
      && BossWellFormed(b')
      && b'.hp == Max(0, b.hp - BossDamage(rank, p.hasPenalty))
      && b'.hp <= b.hp
      && b' == b.(hp := b'.hp, defeated := b'.defeated)
      && q.bossKills == p.bossKills + (if b.hp > 0 && b'.hp == 0 then 1 else 0)
      && q == p.(bossKills := q.bossKills, currentBoss := q.currentBoss)
      && (b.defeated ==> q == p)
  {
  }

  /** Hitting the current boss with a sequence of ranks, one `damageBoss` after another. */
  function DamageAll(p: Profile, ranks: seq<QuestRank>): Profile
    decreases |ranks|
  {
    if ranks == [] then p else DamageAll(DamageBoss(p, ranks[0]), ranks[1..])
  }

  /** However many hits land, a boss is counted as killed at most once: the
      counter rises by one exactly when a boss that was alive ends at zero. */
  lemma {:induction false} KillCountedOnce(p: Profile, ranks: seq<QuestRank>)
    requires p.currentBoss.Some? && BossWellFormed(p.currentBoss.value)
    ensures var q := DamageAll(p, ranks);
      && q.currentBoss.Some? && BossWellFormed(q.currentBoss.value)
      && q.currentBoss.value.hp <= p.currentBoss.value.hp
      && q.bossKills == p.bossKills
           + (if p.currentBoss.value.hp > 0 && q.currentBoss.value.hp == 0 then 1 else 0)
    decreases |ranks|
  {
    if ranks != [] {
      DamageBossEffects(p, ranks[0]);
      KillCountedOnce(DamageBoss(p, ranks[0]), ranks[1..]);
    }
  }

  // ---------------------------------------------------------------------------
  // recordActivity

  /** `recordActivity()`: today's counter (absent counts as 0) goes up by one;
      every other day's counter is untouched. */
  function RecordActivity(p: Profile, today: DateKey): (q: Profile)
    ensures today in q.activityHistory
    ensures q.activityHistory[today] == (if today in p.activityHistory then p.activityHistory[today] else 0) + 1
    ensures forall d :: d != today ==> (d in q.activityHistory <==> d in p.activityHistory)
    ensures forall d :: d != today && d in p.activityHistory ==> q.activityHistory[d] == p.activityHistory[d]
    ensures q == p.(activityHistory := q.activityHistory)
  {
    var h := p.activityHistory;
    p.(activityHistory := h[today := (if today in h then h[today] else 0) + 1])
  }

  // ---------------------------------------------------------------------------
  // Floating point: the penalty as the source evaluates it

  /** 0.7 as an IEEE-754 double is exactly this numerator over 2^53. */
  const SevenTenthsScaled: nat := 6305039478318694
  const TwoTo53: nat := 9007199254740992

  function Pow2(k: nat): (r: nat)
    ensures r >= 1
  {
    if k == 0 then 1 else 2 * Pow2(k - 1)
  }

  /** floor(log2 n). */
  function Log2(n: nat): (r: nat)
    requires n >= 1
    ensures Pow2(r) <= n < 2 * Pow2(r)
  {
    if n == 1 then 0 else 1 + Log2(n / 2)
  }

  /** Rounds `n` to a multiple of `u`, ties to the even multiple. */
  function RoundHalfEven(n: nat, u: nat): nat
    requires u >= 1
  {
    var q := n / u;
    var rem := n % u;
    if 2 * rem < u then q * u
    else if 2 * rem > u then (q + 1) * u
    else if q % 2 == 0 then q * u
    else (q + 1) * u
  }

  /** Rounds a non-negative real given as `scaled / 2^53` to the nearest double,
      returned in the same scale. Below 1 every such value is a double; in
      [2^e, 2^(e+1)) doubles are 2^(e-52) apart, which is 2^(e+1) in this scale. */
  function RoundToDouble(scaled: nat): nat {
    if scaled < TwoTo53 then scaled
    else RoundHalfEven(scaled, Pow2(Log2(scaled / TwoTo53) + 1))
  }

  /** `Math.floor(amount * 0.7)` as JavaScript computes it: the product of
      `amount` and the double nearest 0.7, rounded to a double, then floored. */
  function PenalisedExpAsWritten(amount: nat): nat {
    RoundToDouble(amount * SevenTenthsScaled) / TwoTo53
  }

  /** The penalised reward of a C-rank quest (180 experience) comes out one
      short: the double product is 125.99999999999999, so the floor is 125,
      while seven tenths of 180 is 126. */
  lemma PenaltyRoundsDownAt180()
    ensures PenalisedExpAsWritten(180) == 125
    ensures PenalisedExp(180) == 126
  {
    var scaled := 180 * SevenTenthsScaled;
    assert scaled / TwoTo53 == 125;
    assert Log2(125) == 6 by {
      assert Log2(1) == 0;
      assert Log2(3) == 1;
      assert Log2(7) == 2;
      assert Log2(15) == 3;
      assert Log2(31) == 4;
      assert Log2(62) == 5;
    }
    assert Pow2(7) == 128;
    assert RoundHalfEven(scaled, 128) == 1134907106097364864;
  }
}
