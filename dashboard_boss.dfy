/** The weekly boss panel: the boss HP table and the construction of a new
    boss, when a new boss is summoned and after what delay, the refusal of a
    second summon while one is in flight, and the countdown to next Monday. */
module DashboardBoss {
  import opened Types
  import Progression
  import opened Millis

  /** Boss hit points per hunter rank. */
  function HpFor(rank: QuestRank): int {
    match rank
    case E => 1000 case D => 3000 case C => 10000
    case B => 40000 case A => 120000 case S => 500000
  }

  /** The boss built from the generated name and image for the hunter's rank:
      at full health, undefeated. */
  function NewBoss(rank: QuestRank, name: string, image: string, id: Id, now: int): (b: Boss)
    ensures b.hp == b.maxHp == HpFor(rank) && !b.defeated && b.rank == rank
    ensures Progression.BossWellFormed(b)
  {
    Boss(name, image, HpFor(rank), HpFor(rank), rank, false, id, now)
  }

  /** A higher rank gets a tougher boss, and against a boss of its own rank
      a quest of the next rank up still deals more damage. */
  lemma HpMonotone(r1: QuestRank, r2: QuestRank)
    requires Progression.RankIndex(r1) < Progression.RankIndex(r2)
    ensures HpFor(r1) < HpFor(r2)
    ensures Progression.BaseDamage(r1) < Progression.BaseDamage(r2)
  {
  }

  /** The regeneration effect: `None` while a live boss stands (nothing is
      scheduled); otherwise the delay before summoning — 5000 ms after a
      defeat, at once when there is no boss. */
  function RegenerationDelay(boss: Option<Boss>): (r: Option<int>)
    ensures r.Some? <==> boss.None? || boss.value.defeated
    ensures r.Some? ==> r.value == (if boss.Some? then 5000 else 0)
  {
    match boss
    case None => Some(0)
    case Some(b) => if b.defeated then Some(5000) else None
  }

  /** A fresh boss stops the regeneration; the hit that kills it schedules the
      next one after 5000 ms, and a hit that leaves it standing schedules nothing. */
  lemma RegenerationFollowsKill(p: Profile, rank: QuestRank, name: string, image: string, id: Id, now: int,
                                hit: QuestRank)
    ensures RegenerationDelay(Some(NewBoss(rank, name, image, id, now))).None?
    ensures var q := Progression.DamageBoss(p.(currentBoss := Some(NewBoss(rank, name, image, id, now))), hit);
      && (RegenerationDelay(q.currentBoss) == Some(5000) <==> q.currentBoss.value.hp == 0)
      && (RegenerationDelay(q.currentBoss).None? <==> q.currentBoss.value.hp > 0)
  {
  }

  /** What the image model returned, when the generation succeeded. */
  datatype Manifestation = Manifestation(name: string, image: string)

  /** The summoning state: whether a generation is in flight. */
  class BossSummoner {
    var loading: bool

    constructor ()
      ensures !loading
    {
      loading := false;
    }

    /** The start of `generateBoss`: refused while loading; otherwise the
        flag goes up. Returns whether a generation started. */
    method Begin() returns (started: bool)
      modifies this
      ensures started <==> !old(loading)
      ensures loading
    {
      if loading {
        started := false;
        return;
      }
      loading := true;
      started := true;
    }

    /** The end of `generateBoss`: on success the new boss for the rank read
        at the start replaces the current one; on failure the profile is
        untouched; either way the flag comes down. */
    method Finish(p: Profile, rank: QuestRank, result: Option<Manifestation>, id: Id, now: int)
      returns (q: Profile)
      modifies this
      ensures !loading
      ensures result.None? ==> q == p
      ensures result.Some? ==>
        q == p.(currentBoss := Some(NewBoss(rank, result.value.name, result.value.image, id, now)))
    {
      q := p;
      if result.Some? {
        var newBoss := Boss(result.value.name, result.value.image, HpFor(rank), HpFor(rank), rank,
                            false, id, now);
        q := q.(currentBoss := Some(newBoss));
      }
      loading := false;
    }
  }

  /** The start of next week: today's local midnight moved forward by
      `(1 + 7 - weekday) % 7` days, and by a further week when that is not
      after `now` (on a Monday). The clock readings are inputs; days are
      taken to be 86400000 ms long. */
  method NextMonday(now: int, midnight: int, weekday: int) returns (target: int)
    requires 0 <= weekday < 7
    requires midnight <= now < midnight + DayMs
    ensures now < target <= now + 7 * DayMs
    ensures (target - midnight) % DayMs == 0
    ensures (weekday + (target - midnight) / DayMs) % 7 == 1
  {
    var offset := (1 + 7 - weekday) % 7;
    target := midnight + offset * DayMs;
    if target <= now {
      target := target + 7 * DayMs;
    }
  }

  datatype WeekClock = WeekClock(d: int, h: int, m: int, s: int)

  /** Days, hours, minutes and seconds until next Monday. */
  function WeekCountdown(diff: nat): (c: WeekClock)
    ensures c.d >= 0 && 0 <= c.h < 24 && 0 <= c.m < 60 && 0 <= c.s < 60
    ensures c.d * DayMs + c.h * HourMs + c.m * MinuteMs + c.s * 1000 <= diff
    ensures diff < c.d * DayMs + c.h * HourMs + c.m * MinuteMs + c.s * 1000 + 1000
  {
    var c := WeekClock(diff / DayMs, (diff % DayMs) / HourMs, (diff % HourMs) / MinuteMs, (diff % MinuteMs) / 1000);
    HourRemainder(diff);
    MinuteRemainder(diff);
    assert diff == c.d * DayMs + diff % DayMs;
    assert diff % DayMs == c.h * HourMs + diff % HourMs;
    assert diff % HourMs == c.m * MinuteMs + diff % MinuteMs;
    assert diff % MinuteMs == c.s * 1000 + diff % 1000;
    c
  }
}
