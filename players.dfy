/** A player: mutable funds, and a betting strategy and a name fixed at construction. */
module Players {
  import opened Strategy

  class Player {
    var funds: int
    const strategy: BettingStrategy
    const name: string

    constructor (funds: int, strategy: BettingStrategy, name: string)
      ensures this.funds == funds && this.strategy == strategy && this.name == name
    {
      this.funds := funds;
      this.strategy := strategy;
      this.name := name;
    }

    /** Places a bet: funds drop by the amount, with no check that they suffice. */
    method Bet(amount: int)
      modifies this
      ensures funds == old(funds) - amount
    {
      funds := funds - amount;
    }

    /** Collects winnings: funds rise by the amount. */
    method Earn(amount: int)
      modifies this
      ensures funds == old(funds) + amount
    {
      funds := funds + amount;
    }

    /** Whether the player draws another card at this total: the strategy decides,
        so the player hits exactly below its strategy's stopping limit. */
    predicate Hit(total: int)
      ensures Hit(total) <==> total < strategy.stoppingLimit
    {
      strategy.Hit(total)
    }
  }

  /** Betting an amount and then earning it back leaves the player as it was. */
  method BetThenEarn(p: Player, amount: int)
    modifies p
    ensures p.funds == old(p.funds)
  {
    p.Bet(amount);
    p.Earn(amount);
  }
}
