# Blackjack simulation, modelled in Dafny

A model of the rules in `blackjack.rb` (rubyquiz-blackjack): a simplified
blackjack round between one player and the dealer, and a simulation
that keeps playing rounds for every player who can still afford the flat bet
until at most one player has money left.

The modules follow the classes of the Ruby file:

- `Cards`: card values (1 to 10), the 52-card pack `Deck::CARDS`, and `Deck`, the card source.
  The random draw `Deck.random_card` is replaced by an injected infinite stream of card values
  (`CardStream = nat -> Card`). A `Deck` object reads that stream from the front through a
  cursor `drawn`, so every draw is deterministic and the position of each card is known.
- `Strategy`: `BettingStrategy`, a value holding the stopping limit, with `Hit`.
- `Players`: `Player`, a class whose `funds` field is updated in place. `strategy` and `name`
  are fixed when the player is built. `Bet` and `Earn` change `funds` only.
- `Hands`: the two hand generators. Each is a method with the `while` loop of `blackjack.rb`, proved
  equal to a specification function (`PlayerHand`, `DealerHand`). Each function returns a
  `Hand`: the total and the position of the first card not drawn. Lemmas state what the totals
  mean.
- `Rounds`: the `player_won?` rule (`PlayerWins`), the value-level deal of a round (`Dealt`),
  and the class `Round` with `Play`, `CollectBet`, `DealCards` and `ResolveBets`.
- `Simulation`: the order-preserving filter behind Ruby's `select` (`Select`), the deals of a
  pass threaded through the card stream (`Schedules`), a pass and a run of passes on plain
  values (`PassOf`, `Passes`), and the class `BlackjackSimulation` with `Over`,
  `PlayersWithFunds`, `PlayRound` and a fuel-bounded `PlaySimulation`.

How the card stream is threaded: a round deals the player's hand from the current position.
The dealer's hand starts where the player's ended, and the next round starts where the
dealer's ended. `Schedules` and `ScheduleThreading` state this for a whole pass.

How the methods are tied to values: `PassOf` is one pass of `play_round` on the list of funds
and strategies, and `Passes` is a run of such passes. `PlayRound` ends with the players'
funds and the card position equal to `PassOf` of the state it started from, and
`PlaySimulation` ends with them equal to `Passes` for the number of passes it played. The
properties of a pass are lemmas about `PassOf` and `Passes`. `PassBySchedule` describes the
same pass a second way: the eligible players' deals first, then their settlement.

Two facts of the code shape the model:

- `play_simulation` plays one pass before it first checks `over?`, since it is
  `loop { play_round; break if over? }`.
- A win pays twice the bet and takes nothing from any other player, so total funds change
  from round to round. The model states no conservation of funds.

## Model

| member | source | states |
|---|---|---|
| `Strategy.BettingStrategy.Hit` | blackjack.rb:6-8 | `hit?`: a strategy draws another card exactly while the total is below its stopping limit |
| `Strategy.HitIsThreshold` | blackjack.rb:6-8 | a strategy hits exactly when the total is below its stopping limit, and stands at the limit itself |
| `Strategy.HitMonotone` | blackjack.rb:6-8 | a strategy that hits at some total also hits at every lower total |
| `Players.Player.Bet` | blackjack.rb:12-14 | funds drop by exactly the amount, with no check that they suffice |
| `Players.Player.Earn` | blackjack.rb:16-18 | funds rise by exactly the amount |
| `Players.Player.constructor` | blackjack.rb:11 | `Player.new(funds, strategy, name)` of the Ruby `Struct`: the new player holds exactly the given funds, strategy and name |
| `Players.Player.Hit` | blackjack.rb:20-22 | the player hits exactly below its strategy's stopping limit |
| `Players.BetThenEarn` | blackjack.rb:12-18 | betting an amount and earning it back leaves the funds as they were |
| `Cards.Repeat` | blackjack.rb:26-27 | Ruby's `array * n`: n copies end to end, so the length is n times the length, and nothing new appears |
| `Cards.LowCards` | blackjack.rb:26 | `LOW_CARDS`: the values 1 to 9, four times each |
| `Cards.HighCards` | blackjack.rb:27 | `HIGH_CARDS`: the value 10, sixteen times |
| `Cards.PackCards` | blackjack.rb:28 | `CARDS`: the low cards followed by the high cards |
| `Cards.PackIsCards` | blackjack.rb:26-28 | the pack has 52 cards, each with a value from 1 to 10, so a stream of such values covers every draw |
| `Cards.Deck.RandomCard` | blackjack.rb:30-32 | a draw returns the card at the cursor and advances the cursor by one |
| `Cards.Sum` | blackjack.rb:37-39 | a run of n cards adds up to between n and 10n |
| `Cards.SumSplit` | blackjack.rb:37-39 | the sums of consecutive runs of cards add up |
| `Hands.PlayerDraw` | blackjack.rb:38-40 | the player's `while` loop on values: draw the next card while the strategy hits and the total is below 21 |
| `Hands.PlayerHand` | blackjack.rb:36-42 | `PlayerBlackjackHand.generate` on values: two cards, then the drawing loop |
| `Hands.PlayerDrawFacts` | blackjack.rb:38-40 | the player's loop adds exactly the cards it draws; it stops only when the strategy stands or the total reaches 21; it drew at every earlier total; it never goes past 30 |
| `Hands.PlayerHandFacts` | blackjack.rb:36-42 | the player's total is the sum of at least two cards drawn; drawing stopped at the first total where the strategy stood or 21 was reached; the total is between 2 and 30 |
| `Hands.PlayerStandsBelow21` | blackjack.rb:38 | a player total below 21 means the strategy stood at that total |
| `Hands.PlayerHandExamples` | blackjack_spec.rb:42-56 | the cards 10, 7, 2, 10 give 17 (never hit), 19 (hit once) and 29 (always hit), using 2, 3 and 4 cards |
| `Hands.GeneratePlayerHand` | blackjack.rb:36-42 | the loop returns the total of the player's hand and leaves the cursor just past the last card it drew |
| `Hands.DealerDraw` | blackjack.rb:49-51 | the dealer's `while` loop on values: draw while behind the player and not past 21 |
| `Hands.DealerHand` | blackjack.rb:46-53 | `DealerBlackjackHand.generate` on values: total 0 and no card drawn when the player has 21 or more, otherwise two cards and then the drawing loop |
| `Hands.DealerDrawFacts` | blackjack.rb:49-51 | the dealer's loop adds exactly the cards it draws; it stops only once it has reached the player's total or gone past 21; it drew at every earlier total; it never goes past 31, nor past 29 against a player total of 20 or less |
| `Hands.DealerHandFacts` | blackjack.rb:46-53 | the dealer returns 0 and draws nothing exactly when the player has 21 or more; otherwise its total is the sum of at least two cards, at least the player's total, between 2 and 29, and drawing stopped at the first total that caught up or went past 21 |
| `Hands.DealerHandExamples` | blackjack_spec.rb:60-79 | against 23 and 21 the dealer returns 0; against 20 the cards 5, 6, 10 give 21 and 10, 9, 10 give 29 |
| `Hands.GenerateDealerHand` | blackjack.rb:46-53 | the loop returns the dealer's total and leaves the cursor just past the last card it drew (unmoved on the early return) |
| `Rounds.PlayerWins` | blackjack.rb:76-78 | the `player_won?` rule on two totals: the dealer went past 21, or the player did not and is ahead of the dealer |
| `Rounds.PlayerWinsExamples` | blackjack_spec.rb:93-137 | 19 against 23 and 21 against 0 win; 17 against 18 and 23 against 0 lose |
| `Rounds.Dealt` | blackjack.rb:67-70 | `deal_cards` on values: the player's hand from the cursor, then the dealer's hand against it from the following cards |
| `Rounds.RoundOutcome` | blackjack.rb:47-78 | with both hand rules, a player over 21 always loses, a player on 21 always wins, and a player below 21 wins exactly when the dealer goes past 21 |
| `Rounds.RoundConsumes` | blackjack.rb:67-70 | a round uses at least two cards, and at least four when the player stays below 21 |
| `Rounds.FundsAfterRound` | blackjack.rb:63-74 | taking the bet and paying twice the bet on a win leaves the player exactly one bet up on a win and one bet down otherwise |
| `Rounds.Won` | blackjack.rb:76-78 | `player_won?` on the deal of a round from a given card position |
| `Rounds.Round.constructor` | blackjack.rb:56 | `Round.new(bet_amount, player)`, as `play_round` calls it: the round holds the given bet and player, and both totals start at 0 |
| `Rounds.Round.PlayerWon` | blackjack.rb:76-78 | `player_won?` on the round's stored totals |
| `Rounds.Round.Play` | blackjack.rb:57-61 | one round: the stored totals are the deal from the cursor, the cursor ends after the dealer's hand, and the player's funds end one bet up on a win and one bet down otherwise |
| `Rounds.Round.CollectBet` | blackjack.rb:63-65 | the player's funds drop by the bet |
| `Rounds.Round.DealCards` | blackjack.rb:67-70 | the player's hand is dealt first, then the dealer's against it from the following cards |
| `Rounds.Round.ResolveBets` | blackjack.rb:72-74 | twice the bet is paid when `player_won?` holds on the stored totals, and nothing otherwise |
| `Simulation.Select` | blackjack.rb:94 | Ruby's `select` on the player list, by a test on funds, keeping list order; the result is no longer than the list (the same filter serves `players_with_funds`) |
| `Simulation.SelectMembers` | blackjack.rb:94 | the selection holds exactly the listed players whose funds pass the test |
| `Simulation.SelectAppend` | blackjack.rb:104 | selecting from a concatenation gives the selections of the two parts, in order, so the filter keeps the list order |
| `Simulation.SelectDistinct` | blackjack.rb:104 | a selection from a list without repeated players has none |
| `Simulation.SelectAtMostOne` | blackjack.rb:94 | at most one player is selected exactly when no two different positions hold players that pass the test |
| `Simulation.SelectIsPick` | blackjack.rb:104 | selecting players by their funds is picking the same positions of the list that the list of their funds picks |
| `Simulation.Schedules` | blackjack.rb:97-101 | the deals of the rounds of one pass, in player order, each dealt from where the previous one left the cards |
| `Simulation.ScheduleThreading` | blackjack.rb:97-101 | a pass has one deal per eligible player; the first starts at the cursor, each later one where the previous ended, the pass ends where the last ended, and it uses at least two cards per player |
| `Simulation.SettleEach` | blackjack.rb:98-100 | the players of the `each` loop, each settled with its own deal: one bet taken, twice the bet paid on a win |
| `Simulation.PassOf` | blackjack.rb:97-101 | one pass of `play_round` on values: eligibility is decided by the funds at the start of the pass, eligible players play in list order from the current card position, the others are skipped; one entry of funds per player |
| `Simulation.PassBySchedule` | blackjack.rb:97-105 | a pass equals taking `players_with_funds` first, dealing their rounds in order as `Schedules` does, and settling each of them with its deal while the others keep their funds |
| `Simulation.PassOfFacts` | blackjack.rb:97-101 | in a pass, a player who could not afford the bet keeps its funds, one who could ends exactly one bet up or down, with a bet that is not negative nobody drops below zero, and the card position does not move back |
| `Simulation.Passes` | blackjack.rb:89-91 | the passes of `play_simulation` on values: n passes in a row, each dealt from where the previous one left the cards |
| `Simulation.PassesFacts` | blackjack.rb:89-91 | over any number of passes with a bet that is not negative, funds that were not negative stay so, and the card position does not move back |
| `Simulation.GoesOnBeforeMeans` | blackjack.rb:90 | the loop goes on to pass k exactly when `over?` failed after each of the passes 1 to k - 1 |
| `Simulation.HasMoney` | blackjack.rb:94 | the test in the `select` block of `over?`: a player's funds are above zero |
| `Simulation.OverFunds` | blackjack.rb:94 | `over?` on a list of funds: at most one of them is above zero |
| `Simulation.BlackjackSimulation.Over` | blackjack.rb:93-95 | `over?`: at most one player has funds above zero |
| `Simulation.OverIff` | blackjack.rb:93-95 | `over?` holds exactly when no two different players have funds above zero |
| `Simulation.OverFundsIff` | blackjack.rb:93-95 | `over?` on the players is the same test on the list of their funds |
| `Simulation.OverExamples` | blackjack_spec.rb:149-158 | two players with money: not over; one without and one with: over |
| `Simulation.CanAfford` | blackjack.rb:104 | the test in the `select` block of `players_with_funds`: a player's funds are at least the bet |
| `Simulation.BlackjackSimulation.constructor` | blackjack.rb:84-87 | `initialize`: the simulation holds the given bet and player list, and its `Valid` invariant holds when no player object is listed twice |
| `Simulation.BlackjackSimulation.PlayersWithFunds` | blackjack.rb:103-105 | the result holds exactly the players whose funds are at least the bet |
| `Simulation.EligibleIsPick` | blackjack.rb:103-105 | the players with funds, their funds and their strategies are the positions of the list picked by funds at least the bet; without repeated players in the list there are none in the result |
| `Simulation.PlayersWithFundsExample` | blackjack_spec.rb:161-170 | with a bet of 20, of players holding 10000, 0 and 19 only the first plays |
| `Simulation.BlackjackSimulation.Payout` | blackjack.rb:98-100 | the funds of a player after one round with a given deal: the bet taken and, on a win, twice the bet paid |
| `Simulation.BlackjackSimulation.PlayEach` | blackjack.rb:98-100 | the `each` loop: the deck ends where the pass's deals end, one deal per listed player, and each player's funds are its old funds settled with its own deal (`SettleEach`) |
| `Simulation.PaidToSettle` | blackjack.rb:97-101 | if the eligible players settled their deals and the others kept their funds, the funds of all players are `Settle` of the old funds |
| `Simulation.BlackjackSimulation.PlayRound` | blackjack.rb:97-101 | the players' funds and the card position after the call are exactly `PassOf` of the funds, strategies and card position before it |
| `Simulation.BlackjackSimulation.PlayRoundThenCheck` | blackjack.rb:90 | one turn of the loop: after n passes, one more brings the funds and card position to n + 1 passes, and the result is `over?` on that state |
| `Simulation.BlackjackSimulation.PlaySimulation` | blackjack.rb:89-91 | the funds and the card position at the end are those of `rounds` passes from the start (`Passes`); `over?` failed after each of passes 1 to `rounds` - 1 (`GoesOnBefore`); at most `fuel` passes; `converged` holds exactly when at least one pass was played and `over?` holds at the end, and otherwise all of the fuel was used |

## Left out

- The random draw and the weights of the pack (blackjack.rb:25-32) are not modelled as
  probabilities. The cards a run sees are a parameter (`CardStream`). `PackIsCards` only
  records that the stream's value range matches the pack.
- The `ENV['RUN']` driver (blackjack.rb:108-120) is left out: it builds four players, prints
  their funds and times the run, which is configuration and I/O only.
- `Simulation.BlackjackSimulation.PlaySimulation`: it plays at most `fuel` passes, where
  `blackjack.rb:90` loops without a cap. Whether that loop ends depends on the cards drawn, so
  the model does not prove that it ends. Within the fuel it states the whole run: the state
  after `rounds` passes, and `over?` false after every earlier pass.
- `Simulation.BlackjackSimulation.PlayRound` and `PlaySimulation` require that no player object
  appears twice in the list (`Valid`). `blackjack.rb` does not check this. A repeated player
  would play one round per occurrence, with its eligibility taken once, and the model does not
  cover that case. The constructor establishes `Valid` when the list has no repeats.
- The `players` writer that `attr_accessor` declares (blackjack.rb:82) is not modelled. The
  player list is fixed at construction. Only `blackjack_spec.rb` assigns the list, to set up its
  tests, and `OverExamples` and `PlayersWithFundsExample` take a simulation built with that list.
- The `strategy` and `name` setters of the Ruby `Struct` (blackjack.rb:11) are not modelled.
  Both fields are fixed at construction, and nothing in `blackjack.rb` assigns them.
- The RSpec stubs and mocks of `blackjack_spec.rb` are not modelled. Its expected values
  appear as the example lemmas. A "never hits" player is a strategy with limit 0, "hits once"
  is limit 18, and "always hits" is limit 100.
- `Round` fields `@player_total` and `@dealer_total` are `nil` before `deal_cards` in Ruby. The
  model starts them at 0. `player_won?` is only read after the deal, so this does not matter.
