/** The system shop: buying a chest for coins and receiving one card, whose
    rarity is chosen by thresholds on a uniform random draw. */
module Shop {
  import opened Types

  const ChestCost := 50

  /** The rarity a draw `rand` from [0, 1) picks: mostly common, rarely legendary. */
  function PickRarity(rand: real): (r: Rarity)
    ensures r == LEGENDARY <==> rand > 0.98
    ensures r == EPIC <==> 0.85 < rand <= 0.98
    ensures r == RARE <==> 0.5 < rand <= 0.85
    ensures r == COMMON <==> rand <= 0.5
  {
    if rand > 0.98 then LEGENDARY
    else if rand > 0.85 then EPIC
    else if rand > 0.5 then RARE
    else COMMON
  }

  /** The four cards a chest can hold, each with a fresh id. */
  function ChestCards(ids: seq<Id>): (cards: seq<Card>)
    requires |ids| == 4
    ensures |cards| == 4
  {
    [ Card(ids[0], "Shadow Pierce", 120, 40, RARE, "Serangan bayangan yang menusuk pertahanan."),
      Card(ids[1], "Igris Call", 300, 100, EPIC, "Memanggil ksatria bayangan untuk menyerang."),
      Card(ids[2], "Sovereign Might", 800, 250, LEGENDARY, "Kekuatan penuh sang Penguasa."),
      Card(ids[3], "Dark Veil", 45, 15, COMMON, "Tabir kegelapan penyesat musuh.") ]
  }

  /** The card the draw picks: the one of the picked rarity. */
  function PickCard(rand: real, ids: seq<Id>): (c: Card)
    requires |ids| == 4
    ensures c.rarity == PickRarity(rand)
    ensures c in ChestCards(ids)
  {
    var cards := ChestCards(ids);
    if rand > 0.98 then cards[2]
    else if rand > 0.85 then cards[1]
    else if rand > 0.5 then cards[0]
    else cards[3]
  }

  /** The profile after `buyChest`'s coin check and charge. */
  function Charged(p: Profile): Profile {
    if p.coins < ChestCost then p else p.(coins := p.coins - ChestCost)
  }

  /** The profile after the opened card is added. */
  function Received(p: Profile, card: Card): Profile {
    p.(inventory := p.inventory + [card])
  }

  /** A whole purchase: without 50 coins nothing changes; with them the
      coins drop by exactly 50 (never below zero) and, once opened, the
      inventory gains exactly the drawn card at its end; nothing else in the
      profile changes. */
  lemma Purchase(p: Profile, rand: real, ids: seq<Id>)
    requires |ids| == 4
    ensures p.coins < ChestCost ==> Charged(p) == p
    ensures p.coins >= ChestCost ==>
      var q := Received(Charged(p), PickCard(rand, ids));
      && q.coins == p.coins - ChestCost && q.coins >= 0
      && |q.inventory| == |p.inventory| + 1
      && q.inventory[..|p.inventory|] == p.inventory
      && q.inventory[|p.inventory|].rarity == PickRarity(rand)
      && q == p.(coins := q.coins, inventory := q.inventory)
  {
  }

  /** The shop's own state: whether a chest is being opened, and the card last revealed. */
  class ChestShop {
    var opening: bool
    var revealed: Option<Card>

    constructor ()
      ensures !opening && revealed.None?
    {
      opening := false;
      revealed := None;
    }

    /** Whether the buy button can be pressed. */
    predicate BuyEnabled(p: Profile)
      reads this
    {
      !opening && p.coins >= ChestCost
    }

    /** `buyChest()`: refused without enough coins (only an alert);
        otherwise the opening starts and the coins are charged. */
    method BuyChest(p: Profile) returns (q: Profile)
      modifies this
      ensures q == Charged(p)
      ensures opening == (old(opening) || p.coins >= ChestCost)
      ensures revealed == old(revealed)
    {
      if p.coins < ChestCost {
        q := p;
        return;
      }
      opening := true;
      q := p.(coins := p.coins - ChestCost);
    }

    /** The delayed half of `buyChest()`: draw a card, reveal it, append it to
        the inventory and end the opening. The draw and the fresh ids are inputs. */
    method FinishOpening(p: Profile, rand: real, ids: seq<Id>) returns (q: Profile)
      requires |ids| == 4
      modifies this
      ensures q == Received(p, PickCard(rand, ids))
      ensures revealed == Some(PickCard(rand, ids)) && !opening
    {
      var cards := ChestCards(ids);
      var picked;
      if rand > 0.98 { picked := cards[2]; }
      else if rand > 0.85 { picked := cards[1]; }
      else if rand > 0.5 { picked := cards[0]; }
      else { picked := cards[3]; }
      revealed := Some(picked);
      q := p.(inventory := p.inventory + [picked]);
      opening := false;
    }
  }
}
