/** Card values and the source of cards.
    `blackjack.rb` draws each card at random from a weighted 52-card pack; here the
    cards a run will see are injected up front as an infinite stream, read from
    the front through a cursor. */
module Cards {

  /** A card value: aces count 1, face cards count 10. */
  type Card = c: int | 1 <= c <= 10 witness 1

  /** The cards a run will draw, in order: the card at position i is drawn i-th. */
  type CardStream = nat -> Card

  /** Repeats a sequence n times end to end, as Ruby's `array * n` does. */
  function Repeat(s: seq<int>, n: nat): (r: seq<int>)
    ensures |r| == |s| * n
    ensures forall x :: x in r ==> x in s
  {
    if n == 0 then [] else s + Repeat(s, n - 1)
  }

  /** The nine low values, each four times (one per suit). */
  function LowCards(): seq<int> { Repeat([1, 2, 3, 4, 5, 6, 7, 8, 9], 4) }

  /** The value 10 sixteen times: ten, jack, queen and king of each suit. */
  function HighCards(): seq<int> { Repeat(Repeat([10], 4), 4) }

  /** The pack a card is drawn from. */
  function PackCards(): seq<int> { LowCards() + HighCards() }

  /** The pack has 52 cards and every one of them is a Card value, so a stream
      of Card values covers every possible draw. */
  lemma PackIsCards()
    ensures |PackCards()| == 52
    ensures forall x :: x in PackCards() ==> 1 <= x <= 10
  {
  }

  /** The sum of the cards at positions lo up to, but not including, hi. */
  function Sum(cards: CardStream, lo: nat, hi: nat): (s: int)
    requires lo <= hi
    ensures hi - lo <= s <= 10 * (hi - lo)
    decreases hi - lo
  {
    if lo == hi then 0 else cards(lo) + Sum(cards, lo + 1, hi)
  }

  /** Consecutive runs of cards add up. */
  lemma {:induction false} SumSplit(cards: CardStream, lo: nat, mid: nat, hi: nat)
    requires lo <= mid <= hi
    ensures Sum(cards, lo, hi) == Sum(cards, lo, mid) + Sum(cards, mid, hi)
    decreases mid - lo
  {
    if lo < mid {
      SumSplit(cards, lo + 1, mid, hi);
    }
  }

  /** The card source: a fixed stream and how many cards have been drawn from it. */
  class Deck {
    const cards: CardStream
    var drawn: nat

    constructor (cards: CardStream)
      ensures this.cards == cards && drawn == 0
    {
      this.cards := cards;
      drawn := 0;
    }

    /** Draws the next card. */
    method RandomCard() returns (c: Card)
      modifies this
      ensures c == cards(old(drawn)) && drawn == old(drawn) + 1
    {
      c := cards(drawn);
      drawn := drawn + 1;
    }
  }
}
