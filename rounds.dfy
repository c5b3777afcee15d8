/** One round for one player: collect the bet, deal both hands, pay out on a win. */
module Rounds {
  import opened Cards
  import opened Strategy
  import opened Players
  import opened Hands

  /** The rule of `player_won?`: the player wins when the dealer went past 21,
      or when the player did not and is ahead of the dealer. */
  predicate PlayerWins(playerTotal: int, dealerTotal: int) {
    dealerTotal > 21 || (playerTotal <= 21 && dealerTotal < playerTotal)
  }

  /** The four outcomes of the round tests in `blackjack_spec.rb`. */
  lemma PlayerWinsExamples()
    ensures PlayerWins(19, 23)
    ensures PlayerWins(21, 0)
    ensures !PlayerWins(17, 18)
    ensures !PlayerWins(23, 0)
  {
  }

  /** What the deal of a round produces: both totals and the next card position. */
  datatype Deal = Deal(playerTotal: int, dealerTotal: int, next: nat)

  /** The deal of a round whose player follows strategy s, dealt from position pos:
      the player's hand first, then the dealer's hand from the cards that follow. */
  function Dealt(s: BettingStrategy, cards: CardStream, pos: nat): Deal {
    var p := PlayerHand(s, cards, pos);
    var d := DealerHand(p.total, cards, p.next);
    Deal(p.total, d.total, d.next)
  }

  /** Whether the player of that deal wins. */
  predicate Won(s: BettingStrategy, cards: CardStream, pos: nat) {
    var d := Dealt(s, cards, pos);
    PlayerWins(d.playerTotal, d.dealerTotal)
  }

  /** Combining the win rule with the two hand rules: a player over 21 always
      loses, a player on exactly 21 always wins, and a player below 21 wins
      exactly when the dealer goes past 21. */
  lemma RoundOutcome(s: BettingStrategy, cards: CardStream, pos: nat)
    ensures var d := Dealt(s, cards, pos);
      && (d.playerTotal > 21 ==> !Won(s, cards, pos))
      && (d.playerTotal == 21 ==> Won(s, cards, pos))
      && (d.playerTotal < 21 ==> (Won(s, cards, pos) <==> d.dealerTotal > 21))
  {
    var p := PlayerHand(s, cards, pos);
    PlayerHandFacts(s, cards, pos);
    DealerHandFacts(p.total, cards, p.next);
  }

  /** A round consumes at least two cards (the player's) and, when the player is
      below 21, at least two more (the dealer's). */
  lemma RoundConsumes(s: BettingStrategy, cards: CardStream, pos: nat)
    ensures var d := Dealt(s, cards, pos);
      && d.next >= pos + 2
      && (d.playerTotal < 21 ==> d.next >= pos + 4)
  {
    var p := PlayerHand(s, cards, pos);
    PlayerHandFacts(s, cards, pos);
    DealerHandFacts(p.total, cards, p.next);
  }

  /** The funds a player holds after a round that started with `funds`: the bet
      is taken, and twice the bet is paid back on a win. */
  function FundsAfterRound(funds: int, betAmount: int, won: bool): (r: int)
    ensures r == if won then funds + betAmount else funds - betAmount
  {
    funds - betAmount + (if won then 2 * betAmount else 0)
  }

  /** `Round`: a bet amount, a player, and the totals of the last deal. */
  class Round {
    const betAmount: int
    const player: Player
    var playerTotal: int
    var dealerTotal: int

    constructor (betAmount: int, player: Player)
      ensures this.betAmount == betAmount && this.player == player
      ensures playerTotal == 0 && dealerTotal == 0
    {
      this.betAmount := betAmount;
      this.player := player;
      playerTotal := 0;
      dealerTotal := 0;
    }

    /** `player_won?` on the stored totals. */
    predicate PlayerWon()
      reads this
    {
      PlayerWins(playerTotal, dealerTotal)
    }

    /** Plays the round: the bet, the deal, the payout, once each and in that
        order. The player ends exactly one bet up on a win and one bet down
        otherwise; both hands come from the deck in order. */
    method Play(deck: Deck)
      modifies this, player, deck
      ensures var d := Dealt(player.strategy, deck.cards, old(deck.drawn));
        && playerTotal == d.playerTotal && dealerTotal == d.dealerTotal
        && deck.drawn == d.next
        && player.funds == FundsAfterRound(old(player.funds), betAmount, PlayerWins(d.playerTotal, d.dealerTotal))
    {
      CollectBet();
      DealCards(deck);
      ResolveBets();
    }

    /** Takes the bet from the player. */
    method CollectBet()
      modifies player
      ensures player.funds == old(player.funds) - betAmount
    {
      player.Bet(betAmount);
    }

    /** Deals the player's hand and then the dealer's, from the same deck. */
    method DealCards(deck: Deck)
      modifies this, deck
      ensures var d := Dealt(player.strategy, deck.cards, old(deck.drawn));
        playerTotal == d.playerTotal && dealerTotal == d.dealerTotal && deck.drawn == d.next
    {
      playerTotal := GeneratePlayerHand(player, deck);
      dealerTotal := GenerateDealerHand(playerTotal, deck);
    }

    /** Pays twice the bet when the player won; otherwise pays nothing. */
    method ResolveBets()
      modifies player
      ensures player.funds == old(player.funds) + (if PlayerWon() then 2 * betAmount else 0)
    {
      if PlayerWon() {
        player.Earn(2 * betAmount);
      }
    }
  }
}
