/** The dungeon: a turn-based fight against one of four fixed enemies. The
    fight is a small state machine over the battle state, whose turn it is,
    both sides' hit points and an append-only combat log. */
module DungeonRoom {
  import opened Types

  datatype BattleState = IDLE | FIGHTING | VICTORY | DEFEAT
  datatype Turn = PLAYER | ENEMY

  /** The combat log's lines, by kind. */
  datatype LogLine =
    | GateOpened
    | PlayerHit(attacker: string, damage: int, crit: bool)
    | Cleared(exp: int, gold: int)
    | EnemyHit(enemy: string, damage: int)
    | Neutralised

  datatype Reward = Reward(exp: int, gold: int)

  /** The four gates. */
  const Enemies: seq<Enemy> := [
    Enemy("Goblin Scout", 80, 80, 5, 40, 20, "https://picsum.photos/id/1012/200/200"),
    Enemy("Orc Warrior", 200, 200, 12, 100, 50, "https://picsum.photos/id/1025/200/200"),
    Enemy("Dark Wraith", 450, 450, 25, 350, 150, "https://picsum.photos/id/1033/200/200"),
    Enemy("Ancient Dragon", 1500, 1500, 60, 2000, 1000, "https://picsum.photos/id/1020/200/200")
  ]

  /** The critical-hit probability for an agility: 5% plus half a percent
      per point, capped at 50%. */
  function CritChance(agility: int): (r: real)
    ensures r <= 0.5
    ensures agility >= 0 ==> r >= 0.05
  {
    (if 50.0 < 5.0 + agility as real * 0.5 then 50.0 else 5.0 + agility as real * 0.5) / 100.0
  }

  /** Whether a uniform draw `rand` from [0, 1) makes the hit critical. */
  predicate IsCrit(rand: real, agility: int) {
    rand < CritChance(agility)
  }

  /** Damage of one attack: 10 plus twice the strength, doubled on a critical hit. */
  function AttackDamage(strength: int, crit: bool): (r: int)
    ensures strength >= 0 ==> r >= 10
    ensures crit ==> r == 2 * AttackDamage(strength, false)
  {
    var base := 10 + strength * 2;
    if crit then base * 2 else base
  }

  class Dungeon {
    var battleState: BattleState
    var enemy: Option<Enemy>
    var playerHp: int
    var enemyHp: int
    var logs: seq<LogLine>
    var turn: Turn

    /** The fight's consistency: hit points within bounds, victory only at
        zero enemy hit points, defeat only at zero player hit points, and an
        ongoing fight only against a live enemy. */
    predicate Valid()
      reads this
    {
      && enemyHp >= 0 && playerHp >= 0
      && (enemy.Some? ==> enemyHp <= enemy.value.maxHp)
      && (battleState == VICTORY ==> enemyHp == 0)
      && (battleState == DEFEAT ==> playerHp == 0)
      && (battleState == FIGHTING ==> enemy.Some? && enemyHp > 0)
    }

    /** Whether the attack button can be pressed. */
    predicate AttackEnabled()
      reads this
    {
      turn == PLAYER && battleState == FIGHTING
    }

    /** Mounting, with the hunter's current HP. */
    constructor (hp: int)
      requires hp >= 0
      ensures battleState == IDLE && enemy.None? && playerHp == hp && enemyHp == 0
      ensures logs == [] && turn == PLAYER
      ensures Valid()
    {
      battleState := IDLE;
      enemy := None;
      playerHp := hp;
      enemyHp := 0;
      logs := [];
      turn := PLAYER;
    }

    /** `startDungeon(eIdx)`: a fresh copy of the chosen enemy at full health,
        the hunter at full health, the player to move. */
    method StartDungeon(eIdx: nat, maxHp: int)
      requires eIdx < |Enemies| && maxHp >= 0
      modifies this
      ensures enemy == Some(Enemies[eIdx]) && enemyHp == Enemies[eIdx].maxHp
      ensures playerHp == maxHp && battleState == FIGHTING && turn == PLAYER
      ensures logs == [GateOpened]
      ensures Valid() && AttackEnabled()
    {
      var selected := Enemies[eIdx];
      enemy := Some(selected);
      enemyHp := selected.maxHp;
      playerHp := maxHp;
      battleState := FIGHTING;
      logs := [GateOpened];
      turn := PLAYER;
    }

    /** `playerAttack()` with the crit roll as an input; returns the rewards
        passed to `onVictory`, if it was called. Nothing happens unless it is
        the player's turn against an enemy (the battle state is not checked
        here, only by the button). */
    method PlayerAttack(name: string, strength: int, crit: bool) returns (reward: Option<Reward>)
      modifies this
      ensures !(old(turn) == PLAYER && old(enemy).Some?) ==>
        reward.None? && battleState == old(battleState) && enemyHp == old(enemyHp)
        && turn == old(turn) && logs == old(logs)
      ensures old(turn) == PLAYER && old(enemy).Some? ==>
        var dmg := AttackDamage(strength, crit); var e := old(enemy).value;
        && enemyHp == Max(0, old(enemyHp) - dmg)
        && (enemyHp == 0 ==> battleState == VICTORY && reward == Some(Reward(e.rewardExp, e.rewardGold))
                             && turn == old(turn)
                             && logs == old(logs) + [PlayerHit(name, dmg, crit), Cleared(e.rewardExp, e.rewardGold)])
        && (enemyHp != 0 ==> battleState == old(battleState) && reward.None? && turn == ENEMY
                             && logs == old(logs) + [PlayerHit(name, dmg, crit)])
      ensures enemy == old(enemy) && playerHp == old(playerHp)
      ensures old(Valid()) && strength >= 0 ==> Valid()
      ensures battleState == VICTORY || battleState == DEFEAT ==> !AttackEnabled()
      ensures battleState == FIGHTING ==> old(battleState) == FIGHTING
    {
      reward := None;
      if turn != PLAYER || enemy.None? {
        return;
      }
      var e := enemy.value;
      var baseDmg := 10 + strength * 2;
      var finalDmg := if crit then baseDmg * 2 else baseDmg;
      var newHp := Max(0, enemyHp - finalDmg);
      logs := logs + [PlayerHit(name, finalDmg, crit)];
      if newHp == 0 {
        battleState := VICTORY;
        logs := logs + [Cleared(e.rewardExp, e.rewardGold)];
        reward := Some(Reward(e.rewardExp, e.rewardGold));
      } else {
        turn := ENEMY;
      }
      enemyHp := newHp;
    }

    /** `enemyTurn()`, run later by the timer: the turn passes to the enemy;
        against an enemy the hunter takes its damage (never below zero) and
        either falls or gets the turn back. */
    method EnemyTurn()
      modifies this
      ensures enemy.None? ==>
        turn == ENEMY && battleState == old(battleState) && playerHp == old(playerHp) && logs == old(logs)
      ensures enemy.Some? ==>
        && playerHp == Max(0, old(playerHp) - enemy.value.damage)
        && (playerHp == 0 ==> battleState == DEFEAT && turn == ENEMY
                              && logs == old(logs) + [EnemyHit(enemy.value.name, enemy.value.damage), Neutralised])
        && (playerHp != 0 ==> battleState == old(battleState) && turn == PLAYER
                              && logs == old(logs) + [EnemyHit(enemy.value.name, enemy.value.damage)])
      ensures enemy == old(enemy) && enemyHp == old(enemyHp)
      ensures old(Valid()) && (enemy.Some? ==> enemy.value.damage >= 0) ==> Valid()
      ensures battleState == FIGHTING ==> old(battleState) == FIGHTING
      ensures battleState == VICTORY || battleState == DEFEAT ==> !AttackEnabled()
    {
      turn := ENEMY;
      if enemy.None? {
        return;
      }
      var dmg := enemy.value.damage;
      var newHp := Max(0, playerHp - dmg);
      logs := logs + [EnemyHit(enemy.value.name, dmg)];
      if newHp == 0 {
        battleState := DEFEAT;
        logs := logs + [Neutralised];
      } else {
        turn := PLAYER;
      }
      playerHp := newHp;
    }

    /** The abandon, return and recover buttons. */
    method Leave()
      modifies this
      ensures battleState == IDLE && !AttackEnabled()
      ensures enemy == old(enemy) && enemyHp == old(enemyHp) && playerHp == old(playerHp)
      ensures logs == old(logs) && turn == old(turn)
      ensures old(Valid()) ==> Valid()
    {
      battleState := IDLE;
    }
  }

  /** Every gate's enemy starts at full, positive health, hits for a
      positive amount and pays positive rewards. */
  lemma EnemiesWellFormed()
    ensures forall i :: 0 <= i < |Enemies| ==>
      Enemies[i].hp == Enemies[i].maxHp > 0 && Enemies[i].damage > 0
      && Enemies[i].rewardExp > 0 && Enemies[i].rewardGold > 0
  {
  }
}
