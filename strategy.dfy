/** A player's betting strategy: keep drawing while the total is below a fixed limit. */
module Strategy {

  datatype BettingStrategy = BettingStrategy(stoppingLimit: int) {
    /** Whether to draw another card at the given total. */
    predicate Hit(total: int) {
      total < stoppingLimit
    }
  }

  /** The strategy hits exactly below its stopping limit; at the limit it stands. */
  lemma HitIsThreshold(s: BettingStrategy)
    ensures forall t :: s.Hit(t) <==> t < s.stoppingLimit
    ensures !s.Hit(s.stoppingLimit)
  {
  }

  /** Once the strategy stands at some total it stands at every higher total. */
  lemma HitMonotone(s: BettingStrategy, t: int, u: int)
    requires t <= u && s.Hit(u)
    ensures s.Hit(t)
  {
  }
}
