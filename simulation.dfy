/** The simulation: rounds for every player who can afford the bet, repeated
    until at most one player has money left. */
module Simulation {
  import opened Cards
  import opened Strategy
  import opened Players
  import opened Rounds

  // ---------------------------------------------------------------------------
  // Selecting players by their funds

  /** The players whose funds satisfy `keep`, in list order
      (Ruby's `select` on the player list). */
  function Select(ps: seq<Player>, keep: int -> bool): (r: seq<Player>)
    reads ps
    ensures |r| <= |ps|
    decreases |ps|
  {
    if ps == [] then []
    else (if keep(ps[0].funds) then [ps[0]] else []) + Select(ps[1..], keep)
  }

  /** The selection holds exactly the listed players whose funds satisfy `keep`. */
  lemma {:induction false} SelectMembers(ps: seq<Player>, keep: int -> bool)
    ensures forall k :: 0 <= k < |Select(ps, keep)| ==>
      Select(ps, keep)[k] in ps && keep(Select(ps, keep)[k].funds)
    ensures forall k :: 0 <= k < |ps| && keep(ps[k].funds) ==> ps[k] in Select(ps, keep)
    decreases |ps|
  {
    if ps != [] {
      SelectMembers(ps[1..], keep);
      var r := Select(ps, keep);
      var rest := Select(ps[1..], keep);
      forall k | 0 < k < |ps| && keep(ps[k].funds) ensures ps[k] in r {
        assert ps[k] == ps[1..][k - 1];
      }
    }
  }

  /** Selecting from a concatenation selects from each part and keeps their
      order: the selection is an order-preserving filter. */
  lemma {:induction false} SelectAppend(ps: seq<Player>, qs: seq<Player>, keep: int -> bool)
    ensures Select(ps + qs, keep) == Select(ps, keep) + Select(qs, keep)
    decreases |ps|
  {
    if ps != [] {
      assert (ps + qs)[0] == ps[0];
      assert (ps + qs)[1..] == ps[1..] + qs;
      SelectAppend(ps[1..], qs, keep);
      var head := if keep(ps[0].funds) then [ps[0]] else [];
      assert Select(ps + qs, keep) == head + Select(ps[1..] + qs, keep);
      assert head + (Select(ps[1..], keep) + Select(qs, keep))
          == (head + Select(ps[1..], keep)) + Select(qs, keep);
    } else {
      assert ps + qs == qs;
    }
  }

  /** No player appears twice in the list. */
  ghost predicate Distinct(ps: seq<Player>) {
    forall i, j :: 0 <= i < j < |ps| ==> ps[i] != ps[j]
  }

  /** A selection from a list without repeats has no repeats. */
  lemma {:induction false} SelectDistinct(ps: seq<Player>, keep: int -> bool)
    requires Distinct(ps)
    ensures Distinct(Select(ps, keep))
    decreases |ps|
  {
    if ps != [] {
      SelectDistinct(ps[1..], keep);
      SelectMembers(ps[1..], keep);
      var rest := Select(ps[1..], keep);
      assert ps[0] !in ps[1..];
      assert ps[0] !in rest;
    }
  }

  /** Whether some position of the list holds a player that is kept. */
  ghost predicate AnyKept(ps: seq<Player>, keep: int -> bool)
    reads ps
  {
    exists i :: 0 <= i < |ps| && keep(ps[i].funds)
  }

  /** Whether two different positions of the list hold players that are both kept. */
  ghost predicate TwoKept(ps: seq<Player>, keep: int -> bool)
    reads ps
  {
    exists i, j :: 0 <= i < j < |ps| && keep(ps[i].funds) && keep(ps[j].funds)
  }

  /** The selection is non-empty exactly when some listed player is kept. */
  lemma {:induction false} SelectNonEmpty(ps: seq<Player>, keep: int -> bool)
    ensures |Select(ps, keep)| >= 1 <==> AnyKept(ps, keep)
    decreases |ps|
  {
    if ps != [] {
      var tail := ps[1..];
      SelectNonEmpty(tail, keep);
      if AnyKept(tail, keep) {
        var i :| 0 <= i < |tail| && keep(tail[i].funds);
        assert ps[i + 1] == tail[i];
      }
      if AnyKept(ps, keep) && !keep(ps[0].funds) {
        var i :| 0 <= i < |ps| && keep(ps[i].funds);
        assert tail[i - 1] == ps[i];
      }
    }
  }

  /** Two kept players in a non-empty list: two in its tail, or the first one
      and one in its tail. */
  lemma TwoKeptCons(ps: seq<Player>, keep: int -> bool)
    requires ps != []
    ensures TwoKept(ps, keep) <==>
      TwoKept(ps[1..], keep) || (keep(ps[0].funds) && AnyKept(ps[1..], keep))
  {
    var tail := ps[1..];
    if TwoKept(ps, keep) {
      var i, j :| 0 <= i < j < |ps| && keep(ps[i].funds) && keep(ps[j].funds);
      assert tail[j - 1] == ps[j];
      if i > 0 {
        assert tail[i - 1] == ps[i];
      }
    }
    if TwoKept(tail, keep) {
      var i, j :| 0 <= i < j < |tail| && keep(tail[i].funds) && keep(tail[j].funds);
      assert ps[i + 1] == tail[i] && ps[j + 1] == tail[j];
    }
    if keep(ps[0].funds) && AnyKept(tail, keep) {
      var j :| 0 <= j < |tail| && keep(tail[j].funds);
      assert ps[j + 1] == tail[j];
    }
  }

  /** At most one player is selected exactly when no two different positions
      of the list hold players that are both kept. */
  lemma {:induction false} SelectAtMostOne(ps: seq<Player>, keep: int -> bool)
    ensures |Select(ps, keep)| <= 1 <==> !TwoKept(ps, keep)
    decreases |ps|
  {
    if ps != [] {
      SelectAtMostOne(ps[1..], keep);
      SelectNonEmpty(ps[1..], keep);
      TwoKeptCons(ps, keep);
    }
  }

  // ---------------------------------------------------------------------------
  // The deals of one pass

  /** The deals of consecutive rounds for players with strategies ss, the first
      dealt from position pos and each later one from where the previous ended. */
  datatype Schedule = Schedule(deals: seq<Deal>, next: nat)

  function Schedules(ss: seq<BettingStrategy>, cards: CardStream, pos: nat): Schedule
    decreases |ss|
  {
    if ss == [] then Schedule([], pos)
    else
      var d := Dealt(ss[0], cards, pos);
      var rest := Schedules(ss[1..], cards, d.next);
      Schedule([d] + rest.deals, rest.next)
  }

  /** How the card position is threaded through a pass: one deal per player; the
      first starts at pos, each later one where the previous one ended, the pass
      ends where the last one ended, and every deal uses at least two cards. */
  lemma {:induction false} ScheduleThreading(ss: seq<BettingStrategy>, cards: CardStream, pos: nat)
    ensures var r := Schedules(ss, cards, pos);
      && |r.deals| == |ss|
      && (ss != [] ==> r.deals[0] == Dealt(ss[0], cards, pos))
      && (forall k :: 0 < k < |ss| ==> r.deals[k] == Dealt(ss[k], cards, r.deals[k - 1].next))
      && r.next == (if ss == [] then pos else r.deals[|ss| - 1].next)
      && r.next >= pos + 2 * |ss|
    decreases |ss|
  {
    if ss != [] {
      var d := Dealt(ss[0], cards, pos);
      RoundConsumes(ss[0], cards, pos);
      ScheduleThreading(ss[1..], cards, d.next);
      var r := Schedules(ss, cards, pos);
      var rest := Schedules(ss[1..], cards, d.next);
      forall k | 0 < k < |ss|
        ensures r.deals[k] == Dealt(ss[k], cards, r.deals[k - 1].next)
      {
        assert r.deals[k] == rest.deals[k - 1];
        assert ss[k] == ss[1..][k - 1];
      }
    }
  }

  /** One step of a pass: if the deals from the k-th player on, dealt from pos,
      are the tail of `sched` from k, then the k-th deal is that player's deal
      from pos, and the deals from the next player on, dealt from where it
      ended, are the tail of `sched` from k + 1. */
  lemma ScheduleStep(ss: seq<BettingStrategy>, k: nat, cards: CardStream, pos: nat, sched: Schedule)
    requires k < |ss| && k < |sched.deals|
    requires Schedules(ss[k..], cards, pos) == Schedule(sched.deals[k..], sched.next)
    ensures sched.deals[k] == Dealt(ss[k], cards, pos)
    ensures Schedules(ss[k + 1..], cards, sched.deals[k].next) == Schedule(sched.deals[k + 1..], sched.next)
  {
    assert ss[k..][0] == ss[k];
    assert ss[k..][1..] == ss[k + 1..];
    assert sched.deals[k..][0] == sched.deals[k];
    assert sched.deals[k..][1..] == sched.deals[k + 1..];
  }

  /** The strategies of a list of players, in order. */
  function StrategiesOf(ps: seq<Player>): (ss: seq<BettingStrategy>)
    ensures |ss| == |ps|
    ensures forall k :: 0 <= k < |ps| ==> ss[k] == ps[k].strategy
    decreases |ps|
  {
    if ps == [] then [] else [ps[0].strategy] + StrategiesOf(ps[1..])
  }

  /** The funds of a list of players, in order. */
  function FundsOf(ps: seq<Player>): (fs: seq<int>)
    reads ps
    ensures |fs| == |ps|
    ensures forall k :: 0 <= k < |ps| ==> fs[k] == ps[k].funds
    decreases |ps|
  {
    if ps == [] then [] else [ps[0].funds] + FundsOf(ps[1..])
  }

  // ---------------------------------------------------------------------------
  // One pass on the funds alone

  /** The entries of xs at the positions whose funds in fs satisfy `keep`, in
      order: `select` on values, with the funds given alongside. */
  function Pick<T>(xs: seq<T>, fs: seq<int>, keep: int -> bool): (r: seq<T>)
    requires |xs| == |fs|
    ensures |r| <= |xs|
    decreases |xs|
  {
    if xs == [] then []
    else (if keep(fs[0]) then [xs[0]] else []) + Pick(xs[1..], fs[1..], keep)
  }

  /** Picking the same positions from two lists of equal length keeps as many entries. */
  lemma {:induction false} PickLength<T, U>(xs: seq<T>, ys: seq<U>, fs: seq<int>, keep: int -> bool)
    requires |xs| == |fs| && |ys| == |fs|
    ensures |Pick(xs, fs, keep)| == |Pick(ys, fs, keep)|
    decreases |xs|
  {
    if xs != [] {
      PickLength(xs[1..], ys[1..], fs[1..], keep);
    }
  }

  /** `Select` on players is `Pick` with the players' own funds. */
  lemma {:induction false} SelectIsPick(ps: seq<Player>, keep: int -> bool)
    ensures Select(ps, keep) == Pick(ps, FundsOf(ps), keep)
    decreases |ps|
  {
    if ps != [] {
      assert FundsOf(ps)[1..] == FundsOf(ps[1..]);
      SelectIsPick(ps[1..], keep);
    }
  }

  /** The funds and the strategies of picked players are the picked funds and strategies. */
  lemma {:induction false} PickOfPlayers(ps: seq<Player>, fs: seq<int>, keep: int -> bool)
    requires |fs| == |ps|
    ensures FundsOf(Pick(ps, fs, keep)) == Pick(FundsOf(ps), fs, keep)
    ensures StrategiesOf(Pick(ps, fs, keep)) == Pick(StrategiesOf(ps), fs, keep)
    decreases |ps|
  {
    if ps != [] {
      PickOfPlayers(ps[1..], fs[1..], keep);
      var rest := Pick(ps[1..], fs[1..], keep);
      assert FundsOf(ps)[1..] == FundsOf(ps[1..]);
      assert StrategiesOf(ps)[1..] == StrategiesOf(ps[1..]);
      if keep(fs[0]) {
        assert ([ps[0]] + rest)[1..] == rest;
      } else {
        assert [] + rest == rest;
      }
    }
  }

  /** The funds after a pass, given the deals of the players who could afford
      the bet, in order: each of those players settles its own deal, the others
      keep their funds. */
  function Settle(fs: seq<int>, bet: int, deals: seq<Deal>): (r: seq<int>)
    ensures |r| == |fs|
    decreases |fs|
  {
    if fs == [] then []
    else if fs[0] >= bet && deals != [] then
      [FundsAfterRound(fs[0], bet, PlayerWins(deals[0].playerTotal, deals[0].dealerTotal))]
        + Settle(fs[1..], bet, deals[1..])
    else [fs[0]] + Settle(fs[1..], bet, deals)
  }

  /** The table after a pass: every player's funds, and the next card position. */
  datatype Pass = Pass(funds: seq<int>, next: nat)

  /** One pass of `play_round` on values: the players, with funds fs and
      strategies ss, take their turns in list order; one who could afford the
      bet when the pass began plays a round from the current card position and
      settles it, one who could not is skipped. */
  function PassOf(fs: seq<int>, ss: seq<BettingStrategy>, bet: int, cards: CardStream, pos: nat): (r: Pass)
    requires |ss| == |fs|
    ensures |r.funds| == |fs|
    decreases |fs|
  {
    if fs == [] then Pass([], pos)
    else if fs[0] >= bet then
      var d := Dealt(ss[0], cards, pos);
      var rest := PassOf(fs[1..], ss[1..], bet, cards, d.next);
      Pass([FundsAfterRound(fs[0], bet, PlayerWins(d.playerTotal, d.dealerTotal))] + rest.funds, rest.next)
    else
      var rest := PassOf(fs[1..], ss[1..], bet, cards, pos);
      Pass([fs[0]] + rest.funds, rest.next)
  }

  /** A pass is the schedule of the players who could afford the bet, settled
      into the funds of all players: taking the eligible players first and
      dealing them in order gives the same funds and card position as taking
      all players in turn and skipping the others. */
  lemma {:induction false} PassBySchedule(fs: seq<int>, ss: seq<BettingStrategy>, bet: int, cards: CardStream, pos: nat)
    requires |ss| == |fs|
    ensures var sched := Schedules(Pick(ss, fs, CanAfford(bet)), cards, pos);
      PassOf(fs, ss, bet, cards, pos) == Pass(Settle(fs, bet, sched.deals), sched.next)
    decreases |fs|
  {
    if fs != [] {
      var picked := Pick(ss[1..], fs[1..], CanAfford(bet));
      if fs[0] >= bet {
        var d := Dealt(ss[0], cards, pos);
        PassBySchedule(fs[1..], ss[1..], bet, cards, d.next);
        assert ([ss[0]] + picked)[0] == ss[0];
        assert ([ss[0]] + picked)[1..] == picked;
        var rest := Schedules(picked, cards, d.next);
        assert ([d] + rest.deals)[1..] == rest.deals;
      } else {
        PassBySchedule(fs[1..], ss[1..], bet, cards, pos);
        assert [] + picked == picked;
      }
    }
  }

  /** What a pass does to each player: one who could not afford the bet keeps
      its funds, one who could ends exactly one bet up or one bet down, so with
      a bet that is not negative nobody's funds drop below zero; and the card
      position never moves backwards. */
  lemma {:induction false} PassOfFacts(fs: seq<int>, ss: seq<BettingStrategy>, bet: int, cards: CardStream, pos: nat)
    requires |ss| == |fs|
    ensures var r := PassOf(fs, ss, bet, cards, pos);
      && r.next >= pos
      && (forall i :: 0 <= i < |fs| && fs[i] < bet ==> r.funds[i] == fs[i])
      && (forall i :: 0 <= i < |fs| && fs[i] >= bet ==>
            r.funds[i] == fs[i] + bet || r.funds[i] == fs[i] - bet)
      && (bet >= 0 ==> forall i :: 0 <= i < |fs| && fs[i] >= 0 ==> r.funds[i] >= 0)
    decreases |fs|
  {
    if fs != [] {
      var r := PassOf(fs, ss, bet, cards, pos);
      var next := if fs[0] >= bet then Dealt(ss[0], cards, pos).next else pos;
      if fs[0] >= bet {
        RoundConsumes(ss[0], cards, pos);
      }
      PassOfFacts(fs[1..], ss[1..], bet, cards, next);
      var rest := PassOf(fs[1..], ss[1..], bet, cards, next);
      assert r.funds[1..] == rest.funds;
      forall i | 0 < i < |fs|
        ensures r.funds[i] == rest.funds[i - 1] && fs[i] == fs[1..][i - 1]
      {
      }
    }
  }

  /** The funds of players who each settled one deal, in order. */
  function SettleEach(fs: seq<int>, bet: int, deals: seq<Deal>): (r: seq<int>)
    requires |deals| == |fs|
    ensures |r| == |fs|
    ensures forall k :: 0 <= k < |fs| ==>
      r[k] == FundsAfterRound(fs[k], bet, PlayerWins(deals[k].playerTotal, deals[k].dealerTotal))
    decreases |fs|
  {
    if fs == [] then []
    else
      var w := FundsAfterRound(fs[0], bet, PlayerWins(deals[0].playerTotal, deals[0].dealerTotal));
      [w] + SettleEach(fs[1..], bet, deals[1..])
  }

  /** Players who have paid out their deals, seen on values: if the picked
      funds after the pass are the picked funds before it, each settled with
      its deal, and the others did not change, the funds after are `Settle`. */
  lemma {:induction false} SettleOfPaid(before: seq<int>, after: seq<int>, bet: int, deals: seq<Deal>)
    requires |after| == |before|
    requires |deals| == |Pick(before, before, CanAfford(bet))|
    requires Pick(after, before, CanAfford(bet)) == SettleEach(Pick(before, before, CanAfford(bet)), bet, deals)
    requires forall i :: 0 <= i < |before| && before[i] < bet ==> after[i] == before[i]
    ensures after == Settle(before, bet, deals)
    decreases |before|
  {
    if before != [] {
      var rest := if before[0] >= bet then deals[1..] else deals;
      PaidStep(before, after, bet, deals);
      SettleOfPaid(before[1..], after[1..], bet, rest);
      assert after == [after[0]] + after[1..];
    }
  }

  /** The first player of a paid-out list: its own funds after the pass, and
      what remains to hold of the other players. */
  lemma PaidStep(before: seq<int>, after: seq<int>, bet: int, deals: seq<Deal>)
    requires before != [] && |after| == |before|
    requires |deals| == |Pick(before, before, CanAfford(bet))|
    requires Pick(after, before, CanAfford(bet)) == SettleEach(Pick(before, before, CanAfford(bet)), bet, deals)
    requires forall i :: 0 <= i < |before| && before[i] < bet ==> after[i] == before[i]
    ensures before[0] >= bet ==>
      && deals != []
      && after[0] == FundsAfterRound(before[0], bet, PlayerWins(deals[0].playerTotal, deals[0].dealerTotal))
    ensures before[0] < bet ==> after[0] == before[0]
    ensures var rest := if before[0] >= bet && deals != [] then deals[1..] else deals;
      && |rest| == |Pick(before[1..], before[1..], CanAfford(bet))|
      && Pick(after[1..], before[1..], CanAfford(bet)) == SettleEach(Pick(before[1..], before[1..], CanAfford(bet)), bet, rest)
      && forall i :: 0 <= i < |before| - 1 && before[1..][i] < bet ==> after[1..][i] == before[1..][i]
  {
    var keep := CanAfford(bet);
    var pa := Pick(after[1..], before[1..], keep);
    var pb := Pick(before[1..], before[1..], keep);
    forall i | 0 <= i < |before| - 1 && before[1..][i] < bet
      ensures after[1..][i] == before[1..][i]
    {
      assert before[1..][i] == before[i + 1];
    }
    if before[0] >= bet {
      assert Pick(after, before, keep) == [after[0]] + pa;
      assert Pick(before, before, keep) == [before[0]] + pb;
      assert ([before[0]] + pb)[1..] == pb;
      var w := FundsAfterRound(before[0], bet, PlayerWins(deals[0].playerTotal, deals[0].dealerTotal));
      assert [after[0]] + pa == [w] + SettleEach(pb, bet, deals[1..]);
      assert ([after[0]] + pa)[1..] == pa;
      assert ([w] + SettleEach(pb, bet, deals[1..]))[1..] == SettleEach(pb, bet, deals[1..]);
    } else {
      assert Pick(after, before, keep) == pa;
      assert Pick(before, before, keep) == pb;
    }
  }

  /** n passes in a row, each dealt from where the previous one left the cards. */
  function Passes(fs: seq<int>, ss: seq<BettingStrategy>, bet: int, cards: CardStream, pos: nat, n: nat): (r: Pass)
    requires |ss| == |fs|
    ensures |r.funds| == |fs|
    decreases n
  {
    if n == 0 then Pass(fs, pos)
    else
      var p := Passes(fs, ss, bet, cards, pos, n - 1);
      PassOf(p.funds, ss, bet, cards, p.next)
  }

  /** Over any number of passes with a bet that is not negative, funds that
      were not negative stay so, and the card position never moves backwards. */
  lemma {:induction false} PassesFacts(fs: seq<int>, ss: seq<BettingStrategy>, bet: int, cards: CardStream, pos: nat, n: nat)
    requires |ss| == |fs|
    ensures var r := Passes(fs, ss, bet, cards, pos, n);
      && r.next >= pos
      && (bet >= 0 ==> forall i :: 0 <= i < |fs| && fs[i] >= 0 ==> r.funds[i] >= 0)
    decreases n
  {
    if n > 0 {
      PassesFacts(fs, ss, bet, cards, pos, n - 1);
      var p := Passes(fs, ss, bet, cards, pos, n - 1);
      PassOfFacts(p.funds, ss, bet, cards, p.next);
    }
  }

  /** `over?` on values: at most one of the funds is above zero. */
  predicate OverFunds(fs: seq<int>) {
    |Pick(fs, fs, HasMoney)| <= 1
  }

  /** Whether `over?` holds after n passes from the start. */
  predicate OverAfter(fs: seq<int>, ss: seq<BettingStrategy>, bet: int, cards: CardStream, pos: nat, n: nat)
    requires |ss| == |fs|
  {
    OverFunds(Passes(fs, ss, bet, cards, pos, n).funds)
  }

  /** Whether `over?` failed after every one of the passes 1 to k - 1. */
  predicate GoesOnBefore(fs: seq<int>, ss: seq<BettingStrategy>, bet: int, cards: CardStream, pos: nat, k: nat)
    requires |ss| == |fs|
    decreases k
  {
    k <= 1 || (GoesOnBefore(fs, ss, bet, cards, pos, k - 1) && !OverAfter(fs, ss, bet, cards, pos, k - 1))
  }

  /** `GoesOnBefore` on k says that none of the passes 1 to k - 1 ended with
      at most one player holding money. */
  lemma {:induction false} GoesOnBeforeMeans(fs: seq<int>, ss: seq<BettingStrategy>, bet: int, cards: CardStream, pos: nat, k: nat)
    requires |ss| == |fs|
    ensures GoesOnBefore(fs, ss, bet, cards, pos, k) <==>
      forall n :: 1 <= n < k ==> !OverAfter(fs, ss, bet, cards, pos, n)
    decreases k
  {
    if k > 1 {
      GoesOnBeforeMeans(fs, ss, bet, cards, pos, k - 1);
    }
  }

  // ---------------------------------------------------------------------------
  // The simulation

  /** The test `players_with_funds` applies to each player's funds. */
  function CanAfford(betAmount: int): int -> bool {
    funds => funds >= betAmount
  }

  /** The test `over?` applies to each player's funds. */
  predicate HasMoney(funds: int) {
    funds > 0
  }

  class BlackjackSimulation {
    const betAmount: int
    const players: seq<Player>

    constructor (betAmount: int, players: seq<Player>)
      ensures this.betAmount == betAmount && this.players == players
      ensures Distinct(players) ==> Valid()
    {
      this.betAmount := betAmount;
      this.players := players;
    }

    /** Every player object is in the list once. */
    ghost predicate Valid() {
      Distinct(players)
    }

    /** `over?`: at most one player has funds above zero. */
    predicate Over()
      reads players
    {
      |Select(players, HasMoney)| <= 1
    }

    /** `players_with_funds`: the players who can afford the bet, in order. */
    function PlayersWithFunds(): (r: seq<Player>)
      reads players
      ensures forall k :: 0 <= k < |r| ==> r[k] in players && r[k].funds >= betAmount
      ensures forall k :: 0 <= k < |players| && players[k].funds >= betAmount ==> players[k] in r
    {
      SelectMembers(players, CanAfford(betAmount));
      Select(players, CanAfford(betAmount))
    }

    /** `play_round`: every player who could afford the bet when the pass began
        plays one round, in list order; the others are left alone. */
    method PlayRound(deck: Deck)
      requires Valid()
      modifies PlayersWithFunds(), deck
      ensures var r := PassOf(old(FundsOf(players)), StrategiesOf(players), betAmount, deck.cards, old(deck.drawn));
        FundsOf(players) == r.funds && deck.drawn == r.next
    {
      ghost var funds0 := FundsOf(players);
      ghost var strategies := StrategiesOf(players);
      ghost var pos := deck.drawn;
      var eligible := PlayersWithFunds();
      EligibleIsPick(this);
      ghost var picked := StrategiesOf(eligible);
      assert forall i :: 0 <= i < |players| && funds0[i] < betAmount ==> players[i] !in eligible;
      PlayEach(eligible, deck);
      ghost var sched := Schedules(picked, deck.cards, pos);
      PaidToSettle(players, funds0, betAmount, sched.deals);
      PassBySchedule(funds0, strategies, betAmount, deck.cards, pos);
    }

    /** The `each` loop of `play_round`: one round per listed player, in order,
        each dealt from where the previous one left the deck. */
    method PlayEach(eligible: seq<Player>, deck: Deck)
      requires Distinct(eligible)
      modifies eligible, deck
      ensures var sched := Schedules(StrategiesOf(eligible), deck.cards, old(deck.drawn));
        && deck.drawn == sched.next
        && |sched.deals| == |eligible|
        && FundsOf(eligible) == SettleEach(old(FundsOf(eligible)), betAmount, sched.deals)
    {
      ghost var strategies := StrategiesOf(eligible);
      ghost var sched := Schedules(strategies, deck.cards, deck.drawn);
      ScheduleThreading(strategies, deck.cards, deck.drawn);
      for k := 0 to |eligible|
        invariant Schedules(strategies[k..], deck.cards, deck.drawn) == Schedule(sched.deals[k..], sched.next)
        invariant forall i :: 0 <= i < |eligible| ==>
          eligible[i].funds == if i < k then Payout(old(eligible[i].funds), sched.deals[i]) else old(eligible[i].funds)
      {
        var player := eligible[k];
        ScheduleStep(strategies, k, deck.cards, deck.drawn, sched);
        var round := new Round(betAmount, player);
        round.Play(deck);
      }
      assert forall i :: 0 <= i < |eligible| ==>
        FundsOf(eligible)[i] == SettleEach(old(FundsOf(eligible)), betAmount, sched.deals)[i];
    }

    /** The funds of a player after a round with this deal: the bet is taken
        and, if the player won, twice the bet is paid. */
    function Payout(funds: int, d: Deal): int {
      FundsAfterRound(funds, betAmount, PlayerWins(d.playerTotal, d.dealerTotal))
    }

    /** `play_simulation`, with at most `fuel` passes: a pass is played before
        each check of `over?`, and the loop stops at the first pass after which
        the check holds. The funds and the card position are those of `rounds`
        passes in a row; `over?` failed after every earlier pass; `converged`
        tells whether it stopped on `over?` rather than on the fuel. */
    method PlaySimulation(deck: Deck, fuel: nat) returns (rounds: nat, converged: bool)
      requires Valid()
      modifies players, deck
      ensures var r := Passes(old(FundsOf(players)), StrategiesOf(players), betAmount, deck.cards, old(deck.drawn), rounds);
        FundsOf(players) == r.funds && deck.drawn == r.next
      ensures GoesOnBefore(old(FundsOf(players)), StrategiesOf(players), betAmount, deck.cards, old(deck.drawn), rounds)
      ensures rounds <= fuel
      ensures converged <==> rounds > 0 && Over()
      ensures !converged ==> rounds == fuel
    {
      ghost var funds0 := FundsOf(players);
      ghost var strategies := StrategiesOf(players);
      ghost var pos := deck.drawn;
      rounds, converged := 0, false;
      while rounds < fuel && !converged
        invariant var r := Passes(funds0, strategies, betAmount, deck.cards, pos, rounds);
          FundsOf(players) == r.funds && deck.drawn == r.next
        invariant GoesOnBefore(funds0, strategies, betAmount, deck.cards, pos, rounds)
        invariant rounds <= fuel
        invariant converged <==> rounds > 0 && OverAfter(funds0, strategies, betAmount, deck.cards, pos, rounds)
      {
        converged := PlayRoundThenCheck(deck, funds0, pos, rounds);
        rounds := rounds + 1;
      }
      OverFundsIff(this);
    }

    /** One turn of the `loop` in `play_simulation`: `play_round`, then `over?`.
        After the n-th pass the funds and the card position of the players are
        those of n passes from the start; one more pass brings them to n + 1
        passes, and `over` is `over?` on the result. */
    method PlayRoundThenCheck(deck: Deck, ghost funds0: seq<int>, ghost pos: nat, ghost n: nat) returns (over: bool)
      requires Valid()
      requires |funds0| == |players|
      requires var r := Passes(funds0, StrategiesOf(players), betAmount, deck.cards, pos, n);
        FundsOf(players) == r.funds && deck.drawn == r.next
      modifies players, deck
      ensures var r := Passes(funds0, StrategiesOf(players), betAmount, deck.cards, pos, n + 1);
        FundsOf(players) == r.funds && deck.drawn == r.next
      ensures over == Over()
      ensures over == OverAfter(funds0, StrategiesOf(players), betAmount, deck.cards, pos, n + 1)
    {
      PlayRound(deck);
      OverFundsIff(this);
      over := Over();
    }
  }

  /** The players who can afford the bet, seen on values: they are the players
      picked by their funds, their funds and strategies are the picked ones, and
      they are all different when the players are. */
  lemma EligibleIsPick(sim: BlackjackSimulation)
    ensures var fs := FundsOf(sim.players);
      var e := sim.PlayersWithFunds();
      && e == Pick(sim.players, fs, CanAfford(sim.betAmount))
      && FundsOf(e) == Pick(fs, fs, CanAfford(sim.betAmount))
      && StrategiesOf(e) == Pick(StrategiesOf(sim.players), fs, CanAfford(sim.betAmount))
      && (Distinct(sim.players) ==> Distinct(e))
  {
    SelectIsPick(sim.players, CanAfford(sim.betAmount));
    PickOfPlayers(sim.players, FundsOf(sim.players), CanAfford(sim.betAmount));
    if Distinct(sim.players) {
      SelectDistinct(sim.players, CanAfford(sim.betAmount));
    }
  }

  /** Players who have each settled their deal, seen on values: the eligible
      ones (picked by the funds fs they held before) hold their settled funds,
      the others still hold fs; then their funds are `Settle` of fs. */
  lemma PaidToSettle(ps: seq<Player>, fs: seq<int>, bet: int, deals: seq<Deal>)
    requires |fs| == |ps|
    requires |deals| == |Pick(fs, fs, CanAfford(bet))|
    requires FundsOf(Pick(ps, fs, CanAfford(bet))) == SettleEach(Pick(fs, fs, CanAfford(bet)), bet, deals)
    requires forall i :: 0 <= i < |ps| && fs[i] < bet ==> ps[i].funds == fs[i]
    ensures FundsOf(ps) == Settle(fs, bet, deals)
  {
    PickOfPlayers(ps, fs, CanAfford(bet));
    SettleOfPaid(fs, FundsOf(ps), bet, deals);
  }

  /** `over?` on the players is `over?` on their funds. */
  lemma OverFundsIff(sim: BlackjackSimulation)
    ensures sim.Over() <==> OverFunds(FundsOf(sim.players))
  {
    SelectIsPick(sim.players, HasMoney);
    PickLength(sim.players, FundsOf(sim.players), FundsOf(sim.players), HasMoney);
  }

  /** `over?` holds exactly when no two different players have money. */
  lemma OverIff(sim: BlackjackSimulation)
    ensures sim.Over() <==> !TwoKept(sim.players, HasMoney)
  {
    SelectAtMostOne(sim.players, HasMoney);
  }

  /** The two checks of `blackjack_spec.rb`: two players with money means the
      simulation goes on; one with money and one without means it is over. */
  lemma OverExamples(sim: BlackjackSimulation)
    requires |sim.players| == 2
    ensures sim.players[0].funds > 0 && sim.players[1].funds > 0 ==> !sim.Over()
    ensures sim.players[0].funds <= 0 && sim.players[1].funds > 0 ==> sim.Over()
  {
    OverIff(sim);
    assert sim.players[0].funds > 0 && sim.players[1].funds > 0 ==> TwoKept(sim.players, HasMoney);
  }

  /** The eligibility check of `blackjack_spec.rb`: with a bet of 20, of a
      player with 10000, one with nothing and one with 19, only the first plays. */
  lemma PlayersWithFundsExample(sim: BlackjackSimulation)
    requires sim.betAmount == 20 && |sim.players| == 3
    requires sim.players[0].funds == 10000 && sim.players[1].funds == 0 && sim.players[2].funds == 19
    ensures sim.PlayersWithFunds() == [sim.players[0]]
  {
    var ps := sim.players;
    assert ps[1..][1..][1..] == [];
    assert Select(ps[1..][1..], CanAfford(20)) == [];
    assert Select(ps[1..], CanAfford(20)) == [];
  }
}
