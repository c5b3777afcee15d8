/** Generating the player's and the dealer's hand totals from the card stream. */
module Hands {
  import opened Cards
  import opened Strategy
  import opened Players

  /** A finished hand: its total and the position of the first card not drawn. */
  datatype Hand = Hand(total: int, next: nat)

  // ---------------------------------------------------------------------------
  // Player hand

  /** The player's drawing loop, entered with `total` in hand and the card at
      `pos` on top: draw while the strategy hits and the total is below 21. */
  function PlayerDraw(s: BettingStrategy, cards: CardStream, pos: nat, total: int): Hand
    decreases 21 - total
  {
    if s.Hit(total) && total < 21 then PlayerDraw(s, cards, pos + 1, total + cards(pos))
    else Hand(total, pos)
  }

  /** The player's hand: two cards, then the drawing loop. */
  function PlayerHand(s: BettingStrategy, cards: CardStream, pos: nat): Hand {
    PlayerDraw(s, cards, pos + 2, cards(pos) + cards(pos + 1))
  }

  /** The drawing loop adds exactly the cards it draws, stops only when the
      strategy stands or the total reaches 21, and went on at every earlier total. */
  lemma {:induction false} PlayerDrawFacts(s: BettingStrategy, cards: CardStream, pos: nat, total: int)
    ensures var h := PlayerDraw(s, cards, pos, total);
      && h.next >= pos
      && h.total == total + Sum(cards, pos, h.next)
      && (h.total >= 21 || !s.Hit(h.total))
      && (forall k :: pos <= k < h.next ==>
            var t := total + Sum(cards, pos, k); s.Hit(t) && t < 21)
      && (total <= 30 ==> h.total <= 30)
    decreases 21 - total
  {
    if s.Hit(total) && total < 21 {
      var h := PlayerDraw(s, cards, pos, total);
      PlayerDrawFacts(s, cards, pos + 1, total + cards(pos));
      forall k | pos <= k < h.next
        ensures var t := total + Sum(cards, pos, k); s.Hit(t) && t < 21
      {
        if k > pos {
          assert total + Sum(cards, pos, k) == total + cards(pos) + Sum(cards, pos + 1, k);
        }
      }
    }
  }

  /** What `PlayerBlackjackHand.generate` promises: the total is the sum of the
      cards drawn, at least two of them; drawing stopped at the first total at
      which the strategy stood or 21 was reached; and the total is at most 30. */
  lemma PlayerHandFacts(s: BettingStrategy, cards: CardStream, pos: nat)
    ensures var h := PlayerHand(s, cards, pos);
      && h.next >= pos + 2
      && h.total == Sum(cards, pos, h.next)
      && (h.total >= 21 || !s.Hit(h.total))
      && (forall k :: pos + 2 <= k < h.next ==>
            s.Hit(Sum(cards, pos, k)) && Sum(cards, pos, k) < 21)
      && 2 <= h.total <= 30
  {
    var h := PlayerHand(s, cards, pos);
    PlayerDrawFacts(s, cards, pos + 2, cards(pos) + cards(pos + 1));
    SumSplit(cards, pos, pos + 2, h.next);
    forall k | pos + 2 <= k < h.next
      ensures s.Hit(Sum(cards, pos, k)) && Sum(cards, pos, k) < 21
    {
      SumSplit(cards, pos, pos + 2, k);
    }
  }

  /** A player total below 21 means the strategy stood at that total. */
  lemma PlayerStandsBelow21(s: BettingStrategy, cards: CardStream, pos: nat)
    ensures var h := PlayerHand(s, cards, pos);
      h.total < 21 ==> !s.Hit(h.total)
  {
    PlayerHandFacts(s, cards, pos);
  }

  /** The three hands of `blackjack_spec.rb`: a strategy that never hits
      keeps 10, 7; one that hits once draws the 2; one that always hits draws
      until the total passes 21. */
  lemma PlayerHandExamples(cards: CardStream)
    requires cards(0) == 10 && cards(1) == 7 && cards(2) == 2 && cards(3) == 10
    ensures PlayerHand(BettingStrategy(0), cards, 0) == Hand(17, 2)
    ensures PlayerHand(BettingStrategy(18), cards, 0) == Hand(19, 3)
    ensures PlayerHand(BettingStrategy(100), cards, 0) == Hand(29, 4)
  {
  }

  /** `PlayerBlackjackHand.generate`: draws two cards, then one more while the
      player hits and the total is below 21. */
  method GeneratePlayerHand(player: Player, deck: Deck) returns (total: int)
    modifies deck
    ensures var h := PlayerHand(player.strategy, deck.cards, old(deck.drawn));
      total == h.total && deck.drawn == h.next
  {
    var first: int := deck.RandomCard();
    var second: int := deck.RandomCard();
    total := first + second;
    while player.Hit(total) && total < 21
      invariant PlayerDraw(player.strategy, deck.cards, deck.drawn, total)
             == PlayerHand(player.strategy, deck.cards, old(deck.drawn))
      decreases 21 - total
    {
      var card := deck.RandomCard();
      total := total + card;
    }
  }

  // ---------------------------------------------------------------------------
  // Dealer hand

  /** The dealer's drawing loop: draw while behind the player and not past 21. */
  function DealerDraw(playerTotal: int, cards: CardStream, pos: nat, total: int): Hand
    decreases 22 - total
  {
    if total < playerTotal && total <= 21 then DealerDraw(playerTotal, cards, pos + 1, total + cards(pos))
    else Hand(total, pos)
  }

  /** The dealer's hand: nothing (total 0, no card drawn) when the player has 21
      or more, otherwise two cards and then the drawing loop. */
  function DealerHand(playerTotal: int, cards: CardStream, pos: nat): Hand {
    if playerTotal >= 21 then Hand(0, pos)
    else DealerDraw(playerTotal, cards, pos + 2, cards(pos) + cards(pos + 1))
  }

  /** The dealer's loop adds exactly the cards it draws, stops only once it has
      caught up with the player or gone past 21, and went on at every earlier total.
      It ends at most at 31, and at most at 29 against a player on 20 or less,
      since it then draws only from totals of 19 or less. */
  lemma {:induction false} DealerDrawFacts(playerTotal: int, cards: CardStream, pos: nat, total: int)
    ensures var h := DealerDraw(playerTotal, cards, pos, total);
      && h.next >= pos
      && h.total == total + Sum(cards, pos, h.next)
      && (h.total >= playerTotal || h.total > 21)
      && (forall k :: pos <= k < h.next ==>
            var t := total + Sum(cards, pos, k); t < playerTotal && t <= 21)
      && (total <= 31 ==> h.total <= 31)
      && (playerTotal <= 20 && total <= 29 ==> h.total <= 29)
    decreases 22 - total
  {
    if total < playerTotal && total <= 21 {
      var h := DealerDraw(playerTotal, cards, pos, total);
      DealerDrawFacts(playerTotal, cards, pos + 1, total + cards(pos));
      forall k | pos <= k < h.next
        ensures var t := total + Sum(cards, pos, k); t < playerTotal && t <= 21
      {
        if k > pos {
          assert total + Sum(cards, pos, k) == total + cards(pos) + Sum(cards, pos + 1, k);
        }
      }
    }
  }

  /** What `DealerBlackjackHand.generate` promises. The dealer draws nothing and
      returns 0 exactly when the player has 21 or more. Otherwise the total is the
      sum of at least two cards drawn, at least the player's total, at most 29,
      and drawing stopped at the first total that caught up or went past 21. */
  lemma DealerHandFacts(playerTotal: int, cards: CardStream, pos: nat)
    ensures var h := DealerHand(playerTotal, cards, pos);
      && (playerTotal >= 21 <==> (h.total == 0 && h.next == pos))
      && (playerTotal < 21 ==>
            && h.next >= pos + 2
            && h.total == Sum(cards, pos, h.next)
            && h.total >= playerTotal
            && 2 <= h.total <= 29
            && (forall k :: pos + 2 <= k < h.next ==>
                  Sum(cards, pos, k) < playerTotal && Sum(cards, pos, k) <= 21))
  {
    if playerTotal < 21 {
      var h := DealerHand(playerTotal, cards, pos);
      DealerDrawFacts(playerTotal, cards, pos + 2, cards(pos) + cards(pos + 1));
      SumSplit(cards, pos, pos + 2, h.next);
      forall k | pos + 2 <= k < h.next
        ensures Sum(cards, pos, k) < playerTotal && Sum(cards, pos, k) <= 21
      {
        SumSplit(cards, pos, pos + 2, k);
      }
    }
  }

  /** The dealer hands of `blackjack_spec.rb`. */
  lemma DealerHandExamples(cards: CardStream, other: CardStream)
    requires cards(0) == 5 && cards(1) == 6 && cards(2) == 10
    requires other(0) == 10 && other(1) == 9 && other(2) == 10
    ensures DealerHand(23, cards, 0) == Hand(0, 0)
    ensures DealerHand(21, cards, 0) == Hand(0, 0)
    ensures DealerHand(20, cards, 0) == Hand(21, 3)
    ensures DealerHand(20, other, 0) == Hand(29, 3)
  {
    assert DealerDraw(20, cards, 2, 11) == Hand(21, 3);
    assert DealerDraw(20, other, 2, 19) == Hand(29, 3);
  }

  /** `DealerBlackjackHand.generate`: 0 without drawing when the player has 21
      or more; otherwise two cards, then one more while behind and not past 21. */
  method GenerateDealerHand(playerTotal: int, deck: Deck) returns (total: int)
    modifies deck
    ensures var h := DealerHand(playerTotal, deck.cards, old(deck.drawn));
      total == h.total && deck.drawn == h.next
  {
    if playerTotal >= 21 {
      return 0;
    }
    var first: int := deck.RandomCard();
    var second: int := deck.RandomCard();
    total := first + second;
    while total < playerTotal && total <= 21
      invariant DealerDraw(playerTotal, deck.cards, deck.drawn, total)
             == DealerHand(playerTotal, deck.cards, old(deck.drawn))
      decreases 22 - total
    {
      var card := deck.RandomCard();
      total := total + card;
    }
  }
}
