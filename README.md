# PokerSimulations: the hand evaluator, cards, deck, seats and dealing

This project models the core of the PokerSimulations repository and proves
properties of the model:

- the seven-card hand evaluator of `poker_simulations/eval.py`: `Hand`, its
  ten detector subclasses (`HighCard` … `RoyalFlush`), the comparison
  operators, `hand_rank_order`, `internal_rank`, `eval` and `max`;
- `Card` and `Deck` of `poker_simulations/engine.py`, and the two `Table`
  routines `next_street` and `deal_preflop`;
- `Player`, `EmptySeat`, `Players` and `Position.next_position` of
  `poker_simulations/player.py`, with the position tables of
  `poker_simulations/constants.py`;
- the older evaluator in `game.py`. Its `Card` differs from engine.py's, and
  its `Hand` takes one list of seven cards. The model reuses the eval.py
  evaluator with that constructor, and adds `Table.best_cards`, which picks
  the winning seats.

Modules, one concept each:

| module | file | models |
|---|---|---|
| Wrappers | wrappers.dfy | `Option`, `Result`, the Python exceptions and an operand that may not be of the expected class |
| Seqs, CardSeqs, Counting | seqs.dfy, card_seqs.dfy, counting.dfy | Python built-ins the core relies on: `reversed`, `sorted`, `list(set(...))`, `list.insert`, `deque.remove`, `Counter.most_common` |
| Cards | cards.dfy | both `Card` classes |
| Hands | hands.dfy | hands as values, the ten `get_five_best` detectors, the comparisons, and `eval` as functions |
| HandRules, FlushRules, StraightRules, EvalRules | hand_rules.dfy, flush_rules.dfy, straight_rules.dfy, eval_rules.dfy | what each detector and `eval` decide, stated on the seven cards: rank and suit counts, complete straight windows, and the `k` best cards of a pool |
| Evaluator | evaluator.dfy | the loops of the detectors and of `eval` as methods, each proved to compute the `Hands` function |
| Decks | decks.dfy | `Deck` as a class whose card list the methods change |
| Positions | positions.dfy | the position constants and `next_position` |
| Seating | players.dfy | the `Player` and `Players` classes |
| Tables | table.dfy | the table's street and the `deal_preflop` loop |
| Legacy | legacy.dfy | `Table.best_cards` of game.py |
| GameTests | game_tests.dfy | the expectations of game_tests.py on its fixture hands |

Modelling choices:

- A card is a rank from `2` to `A` plus a suit. The suit keeps its letter and
  its case, because engine.py accepts `'h'` and `'H'` and keeps either: the
  two make unequal cards that print alike.
- The raw constructor arguments, an int or a str rank and a suit string, go
  through `NewCard` (engine.py) or `NewLegacyCard` (game.py). Each returns
  the error the source raises.
- A hand never changes after its constructor returns, so it is a datatype
  of its class and its fields. Every `raise` and every failing `assert` in a
  detector is a `Failure` of the matching error.
- `Build(kind, src)` constructs the class `kind` from its arguments `src`:
  hole and community cards for eval.py (`Split`), one list for game.py
  (`Listed`).
- Most rule lemmas assume seven pairwise-different cards, as a deck deals
  them.

## Model

| member | source | states |
|---|---|---|
| `Cards.Ir` | poker_simulations/engine.py:112-131 | `internal_rank` is the position of the rank in `rank_order`, in 0..12 |
| `Cards.RankOrderStrictlyIncreasing` | poker_simulations/engine.py:119-123 | `internal_rank` strictly increases along 2, 3, …, 10, J, Q, K, A |
| `Cards.ParseRank` | poker_simulations/engine.py:106-107 | a rank is accepted exactly when it is one of 'A', 'K', 'Q', 'J', 2..10, and the card keeps that value |
| `Cards.ParseSuit` | poker_simulations/engine.py:109-110 | a suit is accepted exactly when its lower-case form is h, d, s or c, and the card keeps the string as given |
| `Cards.NewCard` | poker_simulations/engine.py:105-110 | `Card(rank, suit)` succeeds exactly for an accepted rank and suit, raises ValueError otherwise, and keeps both values |
| `Cards.LabelRoundTrip` | poker_simulations/engine.py:106 | every rank's stored value is accepted again as that rank |
| `Cards.SuitRoundTrip` | poker_simulations/engine.py:109 | every suit's stored string is accepted again as that suit |
| `Cards.RankTextRoundTrip` | poker_simulations/engine.py:60-63 | the printed rank reads back as that rank |
| `Cards.ShowIdentifies` | poker_simulations/engine.py:60-63 | two cards print alike exactly when they agree on rank and suit letter, whatever the case of the letter |
| `Cards.CardOrderConsistent` | poker_simulations/engine.py:85-103 | `>` and `>=` are the converses of `<` and `<=`; `<=` is the negation of `>`; the order is total on ranks; any comparison with a non-card raises TypeError |
| `Cards.SameRankIncomparable` | poker_simulations/engine.py:68-72 | cards of equal rank and different suit are unequal, yet neither is less than the other |
| `Cards.NewLegacyCard` | game.py:64-69 | game.py's `Card` accepts only the upper-case suits H, D, S, C; an invalid rank raises AttributeError (its message reads `self.num`), an invalid suit ValueError |
| `Decks.Create` | poker_simulations/engine.py:177-182 | the loop builds each rank's four cards, H, C, S, D, in the order A, K, Q, J, 2..10 |
| `Decks.Creates` | poker_simulations/engine.py:179-181 | every rank and suit `create` passes to `Card` is accepted |
| `Decks.FullDeckSpec` | poker_simulations/engine.py:177-182 | the deck has 52 pairwise-different cards, all with upper-case suits, and every upper-case card is among them |
| `Decks.CardAtInjective` | poker_simulations/engine.py:179-181 | different steps of the loop make different cards |
| `Decks.Deck.constructor` | poker_simulations/engine.py:135-136 | a new deck holds the cards of `create` |
| `Decks.Deck.Shuffle` | poker_simulations/engine.py:184-186 | `shuffle` leaves a permutation of the cards, the one passed in |
| `Decks.Deck.Pop` | poker_simulations/engine.py:188-190 | `pop` raises IndexError on an empty deck; otherwise it returns the last card and the deck keeps the others in order |
| `Decks.FindCard` | poker_simulations/engine.py:193-194 | the search finds the first card matching rank and suit, and nothing exactly when no card matches |
| `Decks.Deck.Get` | poker_simulations/engine.py:192-196 | `get` removes and returns the first card with that rank and suit; with none it returns `None` and the deck is unchanged |
| `Decks.WithoutSpec` | poker_simulations/engine.py:200 | the filter keeps exactly the cards that do not print like `card` |
| `Decks.WithoutConcat` | poker_simulations/engine.py:200 | the filter keeps order: it distributes over concatenation |
| `Decks.Deck.Place` | poker_simulations/engine.py:198-203 | `place` returns a new deck: this deck's cards without those printing like `card`, with `card` inserted at `position` |
| `Decks.PlaceSpec` | poker_simulations/engine.py:200-202 | after `place`, `card` is at the index `list.insert` picks, removing it gives the filtered list back in order, and no other card prints like it |
| `Seqs.InsertIndex` | poker_simulations/engine.py:201 | `list.insert` puts the element at `position` when it is in range and counts a negative position from the end; a position past the end gives the end, and one before the start gives 0 |
| `Seqs.InsertSpec` | poker_simulations/engine.py:201 | the inserted element sits at that index and the other elements keep their order |
| `Seqs.RemoveFirstAt` | poker_simulations/engine.py:195 | `remove` deletes the first occurrence only |
| `Tables.StreetAfter` | poker_simulations/engine.py:350-359 | a street follows exactly preflop, flop and turn; river and any other value have none |
| `Tables.StreetsFromPreflop` | poker_simulations/engine.py:350-359 | from preflop, three calls reach flop, turn and river, and a fourth raises |
| `Tables.Table.NextStreet` | poker_simulations/engine.py:350-361 | `next_street` moves preflop to flop to turn to river, and raises ValueError from any other street, leaving it unchanged |
| `Tables.Table.DealPreflop` | poker_simulations/engine.py:270-285 | the 18-step loop ends with the deck and each seat's cards as the dealing function says, and raises IndexError exactly when the deck runs out |
| `Tables.PreflopDeal` | poker_simulations/engine.py:270-285 | after the 18 steps, if the deck held at least two cards per occupied seat, each occupied seat gained exactly 2 cards, each empty seat none, and the deck lost exactly twice the occupied seats from its end; otherwise the deal raises; no card is created or lost |
| `Tables.DealConserves` | poker_simulations/engine.py:281-282 | after any number of steps, the cards dealt plus the deck are the multiset of the starting deck |
| `Tables.DealProgress` | poker_simulations/engine.py:275-283 | after `t` steps, the deal has failed exactly when the deck held fewer cards than the pops so far; if not, the deck is its starting prefix and each seat holds one card per visit |
| `Tables.VisitAtValue` | poker_simulations/engine.py:273-276 | the loop visits sb, bb, … co, btn, then the same again: it starts after the button |
| `Tables.VisitsClosed` | poker_simulations/engine.py:275-276 | in 18 steps each of the nine seats is visited exactly twice |
| `Tables.StepSkips` | poker_simulations/engine.py:278-280 | an empty seat is skipped without touching the deck |
| `Tables.StepDeals` | poker_simulations/engine.py:281-283 | an occupied seat gets the deck's last card |
| `Tables.StepFails` | poker_simulations/engine.py:281 | popping an empty deck ends the deal with an error |
| `Tables.FailedStays` | poker_simulations/engine.py:281 | once the deal has failed, later steps change nothing |
| `Tables.Table.Deal` | poker_simulations/engine.py:272-284 | the `while count < 18` loop keeps the dealing invariant on every seat and ends as 18 steps of the dealing function, raising IndexError exactly when they fail |
| `Tables.StopsDealing` | poker_simulations/engine.py:275-281 | once the loop stops, after 18 steps or at a failed pop, the seats are as the 18-step deal leaves them |
| `Tables.NextVisit` | poker_simulations/engine.py:276 | `current_pos` after `count` steps is seat `count` mod 9 counted from the button, and its `next_position` is the seat visited at step `count` |
| `Tables.Table.NextSeat` | poker_simulations/engine.py:276-277 | each step looks up the seat after the previous one |
| `Tables.Table.Serve` | poker_simulations/engine.py:278-283 | one step keeps the dealing invariant and fails exactly when the deck is empty at an occupied seat |
| `Positions.PositionOf` | poker_simulations/constants.py:1-11 | `POSITIONS` has exactly the keys 0..8 |
| `Positions.NamesDistinct` | poker_simulations/constants.py:1-11 | the nine position names are pairwise different |
| `Positions.InvertedAfterPositions` | poker_simulations/constants.py:12 | `POSITIONS_INVERTED[POSITIONS[i]] == i` for every i in 0..8 |
| `Positions.PositionsAfterInverted` | poker_simulations/constants.py:12 | a name has an inverse index exactly when it is a position name, and `POSITIONS[POSITIONS_INVERTED[n]] == n` |
| `Positions.BettingOrderRotates` | poker_simulations/constants.py:13-15 | `BETTING_ORDER` is `POSITIONS` rotated left by one: it starts at sb, ends at btn and holds exactly the nine names |
| `Positions.SeatNamed` | poker_simulations/player.py:292-295 | a seat read from a name prints as that name |
| `Positions.NameRoundTrip` | poker_simulations/player.py:292-295 | every seat's name reads back as that seat |
| `Positions.NextPosition` | poker_simulations/player.py:300-318 | `next_position` gives the following seat's name for a position name, and `None` for any other string |
| `Positions.NextOfSeat` | poker_simulations/player.py:300-318 | the successor of a seat's name is the name of the following seat |
| `Positions.FollowingIndex` | poker_simulations/player.py:300-318 | the successor of seat i is seat (i + 1) mod 9 |
| `Positions.WalkAdvances` | poker_simulations/player.py:300-318 | `n` applications of `next_position` advance the seat by `n` |
| `Positions.AdvanceIndex` | poker_simulations/player.py:300-318 | advancing by `n` moves the index by `n` mod 9 |
| `Positions.NineCycle` | poker_simulations/player.py:300-318 | nine applications return to the start and no fewer do: the successor is one 9-cycle |
| `Seating.Player.constructor` | poker_simulations/player.py:17-25 | a new player holds the given fields, with a copy of the cards, and its hole cards are hidden |
| `Seating.Player.New` | poker_simulations/player.py:17-32 | the constructor raises ValueError exactly for a status outside `valid_status` |
| `Seating.Player.EmptySeat` | poker_simulations/player.py:193-200 | an `EmptySeat` is a new player named 'Empty', at the given position, with stack 0, no cards and status 'Empty' |
| `Seating.Player.Bet` | poker_simulations/player.py:40-42 | `bet` takes the amount from the stack and returns it |
| `Seating.Player.GiveCard` | poker_simulations/player.py:52-57 | `give_card` raises ValueError, changing nothing, exactly when more than two cards are held; otherwise it appends the card |
| `Seating.Player.RemoveCards` | poker_simulations/player.py:59-60 | `remove_cards` leaves no cards |
| `Seating.CallAmount` | poker_simulations/player.py:114-116 | `call` pays the amount when the stack covers it and the whole stack otherwise; it never pays more than asked and never leaves a negative stack |
| `Seating.Player.Call` | poker_simulations/player.py:111-124 | `call(None)` raises ValueError and changes nothing; otherwise the stack drops by exactly the amount reported and stays non-negative |
| `Seating.RaiseAmount` | poker_simulations/player.py:126-132 | `raise_` goes all in for exactly the stack when the amount reaches it, and otherwise raises by the amount, which leaves chips behind |
| `Seating.Player.Raise` | poker_simulations/player.py:126-140 | the stack drops by the amount reported; an all-in leaves 0 and a raise leaves a positive stack |
| `Seating.Player.Compare` | poker_simulations/player.py:62-92 | each comparison raises TypeError against a non-player and KeyError when a position is not a position name |
| `Seating.OrderedBySeat` | poker_simulations/player.py:62-92 | between seated players the six operators compare the seat numbers: they form a strict total order, `>` is the converse of `<`, and `!=` negates `==` |
| `Seating.PositionNamesAreNames` | poker_simulations/player.py:238 | the values of `POSITIONS` are exactly the position names |
| `Seating.ZippedSpec` | poker_simulations/player.py:233-235 | a list of players is zipped so that the i-th player sits at `POSITIONS[i]`, with no other keys |
| `Seating.Players.Init` | poker_simulations/player.py:231-242 | the object stores the dict and the number of players given |
| `Seating.Players.New` | poker_simulations/player.py:230-246 | `Players(iterable)` raises ValueError exactly when a key is not a position name; otherwise all nine names are keys, given players keep their positions, and every added entry is a new `EmptySeat` for its position |
| `Seating.Players.FillEmptySeats` | poker_simulations/player.py:244-246 | the loop gives every free position a new `EmptySeat` and keeps the other entries |
| `Seating.Players.Get` | poker_simulations/player.py:254-260 | an int `i` reads the entry of `POSITIONS[i]` and a name reads its own entry; an int outside 0..8 or a missing name raises KeyError, and another key type fails the assertion |
| `Seating.Players.Set` | poker_simulations/player.py:266-269 | `__setitem__` raises ValueError for a key that is not a position name, changing nothing; otherwise it replaces that entry only, so all nine positions stay filled |
| `Seating.ListedBySeatNumber` | poker_simulations/player.py:254-256 | after construction from a list, seat number `i` reads the `i`-th player, and any seat number in 0..8 reads some player |
| `Seqs.DedupSpec` | poker_simulations/eval.py:273 | `list(set(s))` holds each member of `s` exactly once |
| `CardSeqs.SortAscSpec` | poker_simulations/eval.py:253 | `sorted` returns an ascending permutation |
| `CardSeqs.SortDescSpec` | poker_simulations/eval.py:8-11 | `list(reversed(sorted(s)))` is a descending permutation of `s` |
| `CardSeqs.TopOfSortDesc` | poker_simulations/eval.py:274-275 | the first `k` of the descending list are the `k` best cards |
| `CardSeqs.WithSuitDescending` | poker_simulations/eval.py:238-240 | filtering a descending list by suit keeps it descending |
| `CardSeqs.WithRankDescending` | poker_simulations/eval.py:191-193 | filtering a descending list by rank keeps it descending |
| `Counting.RankedSpec` | poker_simulations/eval.py:184 | `most_common(n)` lists min(n, distinct keys) keys with their true counts, by non-increasing count |
| `Counting.MostCommonFirst` | poker_simulations/eval.py:184 | the first entry has the largest count, and with ties it is the key seen first |
| `Counting.MostCommonSecond` | poker_simulations/eval.py:210 | the second entry has the largest count among the other keys, with ties broken by first occurrence |
| `Counting.PigeonHole` | poker_simulations/eval.py:212 | with no key more than `m` times, there are at least `|s| / m` distinct keys |
| `HandRules.ArrangedSpec` | poker_simulations/eval.py:8-11 | `cards` is a descending permutation of hole plus community cards |
| `HandRules.BuildShape` | poker_simulations/eval.py:6-19 | every hand constructor raises ValueError unless there are seven cards, and otherwise keeps its class, its sorted arguments and `cards` descending |
| `Hands.Construct` | game.py:211-222 | game.py's `Hand(cards)` raises ValueError unless there are seven cards, and keeps the cards sorted descending |
| `HandRules.StoredSeven` | game.py:214 | the sorted arguments still hold the same seven different cards |
| `HandRules.SetAside` | poker_simulations/eval.py:194 | for different cards, the symmetric difference of the chosen cards and `cards` is exactly the cards not chosen |
| `HandRules.BestOfRest` | poker_simulations/eval.py:194-197 | the head of the sorted remainder is the best cards left after the chosen ones |
| `HandRules.HighCardRule` | poker_simulations/eval.py:369-372 | `HighCard` always qualifies, and its `five_best` is the first five of the descending cards: the five best |
| `HandRules.FirstFiveBest` | game.py:572-575 | the first five of game.py's sorted cards are the five best |
| `HandRules.DeclinedBest` | poker_simulations/eval.py:202-203 | a detector that does not qualify returns a `HighCard` hand of the same cards, holding their five best |
| `HandRules.Leader` | poker_simulations/eval.py:340-342 | the first entry of `most_common` over descending cards is the highest rank of top multiplicity |
| `HandRules.GroupPick` | poker_simulations/eval.py:348-359 | the cards of that rank followed by the best `k` others form the `five_best` of Pair, ThreeOfAKind or FourOfAKind |
| `HandRules.PairDetect` | poker_simulations/eval.py:334-366 | `Pair` qualifies exactly when the top rank multiplicity is 2, so also on two pairs; `five_best` is then the highest pair and the best three others, and otherwise the five best cards |
| `HandRules.PairRule` | poker_simulations/eval.py:334-366 | the same for a constructed `Pair` of seven different cards |
| `HandRules.TopPairs` | poker_simulations/eval.py:312-314 | when `most_common(2)` gives two counts of 2, they are the two highest pairs, the higher first |
| `HandRules.TwoPairPick` | poker_simulations/eval.py:316-325 | those two pairs and the head of the sorted remainder have the shape of TwoPair's `five_best` |
| `HandRules.TwoPairKept` | poker_simulations/eval.py:307-329 | with two counts of 2, `TwoPair` qualifies and yields the two highest pairs, higher first, then the best other card |
| `HandRules.TwoPairDetect` | poker_simulations/eval.py:307-331 | `TwoPair` qualifies exactly when the top multiplicity is 2 and two ranks have it; with three pairs it takes the two highest |
| `HandRules.TwoPairRule` | poker_simulations/eval.py:307-331 | the same for a constructed `TwoPair` of seven different cards |
| `HandRules.ThreeDetect` | poker_simulations/eval.py:280-304 | `ThreeOfAKind` qualifies exactly when the top multiplicity is 3; `five_best` is the highest triple then the best two others |
| `HandRules.ThreeRule` | poker_simulations/eval.py:280-304 | the same for a constructed `ThreeOfAKind` |
| `HandRules.FourPick` | poker_simulations/eval.py:189-197 | four of a rank and the best other card form FourOfAKind's `five_best` |
| `HandRules.FourDetect` | poker_simulations/eval.py:179-203 | `FourOfAKind` qualifies exactly when the top multiplicity is 4; `five_best` is the quad then the best other card |
| `HandRules.FourRule` | poker_simulations/eval.py:179-203 | the same for a constructed `FourOfAKind` |
| `HandRules.AfterTriple` | poker_simulations/eval.py:210-212 | after a count of 3, `most_common(2)` gives a second triple, the highest pair, or no pair at all |
| `HandRules.FullHouseKept` | poker_simulations/eval.py:212-223 | with counts 3 and 2, `five_best` is the triple and the highest pair, re-sorted descending |
| `HandRules.FullHouseDetect` | poker_simulations/eval.py:206-225 | `FullHouse` qualifies exactly when one rank occurs three times, none more, a pair exists and no second triple does |
| `HandRules.FullHouseRule` | poker_simulations/eval.py:206-225 | the same for a constructed `FullHouse` |
| `FlushRules.FlushSuit` | poker_simulations/eval.py:232-234 | `most_common(1)` over suits gives a suit of largest count |
| `FlushRules.FlushPick` | poker_simulations/eval.py:238-245 | the first five of that suit in descending order, re-sorted, are the five best cards of the suit |
| `FlushRules.FlushDetect` | poker_simulations/eval.py:228-248 | `Flush` qualifies exactly when some suit occurs at least five times; `five_best` is the five best of that suit, descending |
| `FlushRules.FlushRule` | poker_simulations/eval.py:228-248 | the same for a constructed `Flush` |
| `StraightRules.CoveredRuns` | poker_simulations/eval.py:262 | `set(v).issubset(set(internal_ranks))` holds exactly when every rank of window `v` is present |
| `StraightRules.StraightHitsFacts` | poker_simulations/eval.py:253-268 | the loop collects exactly the cards lying in some complete window; it collects nothing exactly when no window is complete, and otherwise at least five different cards |
| `StraightRules.BestPool` | poker_simulations/eval.py:273 | `set(best_five)` is the multiset of the cards in complete windows |
| `StraightRules.StraightDetect` | poker_simulations/eval.py:251-277 | `Straight` qualifies exactly when one of the windows {i..i+4}, i in 0..8, or {12, 0, 1, 2, 3} is complete; `five_best` is the five best cards among all cards of all complete windows |
| `StraightRules.StraightRule` | poker_simulations/eval.py:251-277 | the same for a constructed `Straight` |
| `StraightRules.StraightFlushSteps` | poker_simulations/eval.py:166-176 | `StraightFlush` builds a Straight and a Flush and agrees with both when both qualify |
| `StraightRules.StraightFlushRule` | poker_simulations/eval.py:164-176 | `StraightFlush` raises AssertionError exactly when both a straight and a flush qualify with different `five_best`; otherwise it qualifies exactly on a straight and a flush, taking the Flush's `five_best` |
| `StraightRules.RoyalLabelsRanks` | poker_simulations/eval.py:156-157 | the rank test `['A', 'K', 'Q', 'J', 10]` holds exactly for ranks A, K, Q, J, 10 in that order |
| `StraightRules.RoyalFlushRule` | poker_simulations/eval.py:151-161 | `RoyalFlush` raises exactly when its StraightFlush does; it qualifies exactly when that qualifies with A, K, Q, J, 10, and then `five_best` is all seven cards; a non-royal straight flush leaves `None`, and no straight flush leaves a HighCard hand |
| `EvalRules.NamesInOrder` | poker_simulations/eval.py:94-112 | `hand_rank_order` lists the ten class names once each, weakest first, and not the base class |
| `EvalRules.InternalRankIsLookup` | poker_simulations/eval.py:114-116 | `internal_rank` is the position of the class name in `hand_rank_order`, and KeyError for the base class |
| `EvalRules.DetectorsDecrease` | poker_simulations/eval.py:132 | `Hand.__subclasses__()` lists the ten classes from RoyalFlush down to HighCard |
| `EvalRules.Score` | poker_simulations/eval.py:48-49 | the sum of `internal_rank` over a list `five_best` succeeds |
| `EvalRules.RankPairIsCategories` | poker_simulations/eval.py:47 | the two hands' `internal_rank` are their categories |
| `EvalRules.LessRule` | poker_simulations/eval.py:44-54 | `<` raises TypeError against a non-hand; different categories compare by category, equal ones by the sum over `five_best`, which raises TypeError when one `five_best` is not a list |
| `EvalRules.LessAcross` | poker_simulations/eval.py:52-54 | hands of different categories compare by category |
| `EvalRules.LessWithin` | poker_simulations/eval.py:47-50 | hands of one category compare by the sum of `internal_rank` over `five_best` |
| `EvalRules.GreaterIsConverse` | poker_simulations/eval.py:68-79 | `a > b` is `b < a`, errors included |
| `EvalRules.LessEqualNegatesGreater` | poker_simulations/eval.py:56-79 | `a <= b` succeeds exactly when `a > b` does, and is its negation |
| `EvalRules.LessStrict` | poker_simulations/eval.py:44-54 | `<` is irreflexive and transitive |
| `EvalRules.GreaterEqualAsWritten` | poker_simulations/eval.py:81-92 | `__ge__` as written computes `__le__` |
| `EvalRules.BuildSafe` | poker_simulations/eval.py:133 | for seven different cards, only StraightFlush and RoyalFlush constructors can raise, and only AssertionError |
| `EvalRules.BuiltSound` | poker_simulations/eval.py:132-133 | each of `eval`'s ten constructor calls gives a hand of its class or that AssertionError |
| `EvalRules.CollectFailure` | poker_simulations/eval.py:131-135 | when the loop raises, it raises what one of the constructor calls raised |
| `EvalRules.CollectComplete` | poker_simulations/eval.py:131-135 | the loop finishes only when every constructor call returned |
| `EvalRules.CollectMembers` | poker_simulations/eval.py:134-135 | `isa_list` holds only qualifying hands, each one a constructor call returned |
| `EvalRules.CollectKeeps` | poker_simulations/eval.py:134-135 | every qualifying hand enters `isa_list` |
| `EvalRules.CollectDecreasing` | poker_simulations/eval.py:131-135 | `isa_list` keeps the order of the calls, strongest class first |
| `EvalRules.CollectFirst` | poker_simulations/eval.py:131-135 | `isa_list` is non-empty, and its first hand has the highest category of any qualifying hand |
| `EvalRules.MaxKeepsFirst` | poker_simulations/eval.py:137 | `max` keeps the first hand when every later one has a lower category |
| `EvalRules.PyMaxFirst` | poker_simulations/eval.py:137 | `max` of a list of strictly decreasing categories is its first element |
| `EvalRules.EvaluateOver` | poker_simulations/eval.py:126-139 | given what each constructor call can return, `eval` raises exactly when StraightFlush or RoyalFlush raises, and otherwise returns a qualifying hand of highest category |
| `EvalRules.EvaluateBuilt` | poker_simulations/eval.py:126-139 | the same for the calls `eval` makes on seven different cards |
| `EvalRules.EvaluateRule` | poker_simulations/eval.py:126-139 | `eval` on a hand of seven different cards raises exactly when StraightFlush or RoyalFlush raises, and then AssertionError; otherwise it returns a qualifying hand whose category is at least that of every qualifying class |
| `Evaluator.PairCards` | poker_simulations/eval.py:348-351 | the loop appends exactly the cards of the pair's rank, in order |
| `Evaluator.GroupCards` | poker_simulations/eval.py:189-193 | the nested loop appends, for each `most_common` entry, the cards of that rank |
| `Evaluator.SuitCards` | poker_simulations/eval.py:238-240 | the loop appends exactly the cards of that suit, in order |
| `Evaluator.WindowCards` | poker_simulations/eval.py:263-266 | the nested loop appends the cards whose rank is in the window |
| `Evaluator.RunCards` | poker_simulations/eval.py:261-266 | the loop over the windows collects the cards of every complete window |
| `Evaluator.PairBest` | poker_simulations/eval.py:334-366 | the method computes Pair's `get_five_best` |
| `Evaluator.TwoPairBest` | poker_simulations/eval.py:307-331 | the method computes TwoPair's `get_five_best` |
| `Evaluator.ThreeOfAKindBest` | poker_simulations/eval.py:280-304 | the method computes ThreeOfAKind's `get_five_best` |
| `Evaluator.FourOfAKindBest` | poker_simulations/eval.py:179-203 | the method computes FourOfAKind's `get_five_best` |
| `Evaluator.FullHouseBest` | poker_simulations/eval.py:206-225 | the method computes FullHouse's `get_five_best` |
| `Evaluator.FlushBest` | poker_simulations/eval.py:228-248 | the method computes Flush's `get_five_best` |
| `Evaluator.StraightBest` | poker_simulations/eval.py:251-277 | the method computes Straight's `get_five_best` |
| `Evaluator.StraightFlushBest` | poker_simulations/eval.py:164-176 | the method computes StraightFlush's `get_five_best` |
| `Evaluator.FlushThenAgree` | poker_simulations/eval.py:167-176 | after the Straight, the method builds the Flush and checks both agree |
| `Evaluator.RoyalFlushBest` | poker_simulations/eval.py:151-161 | the method computes RoyalFlush's `get_five_best` |
| `Evaluator.Make` | poker_simulations/eval.py:5-19 | constructing any class computes `Build`, so the rules above hold of what the code returns |
| `Evaluator.QualifyingHands` | poker_simulations/eval.py:131-135 | the loop of `eval` collects `isa_list` |
| `Evaluator.Eval` | poker_simulations/eval.py:126-139 | `eval` computes `Evaluate`, so `EvaluateRule` holds of its result |
| `Evaluator.Max` | poker_simulations/eval.py:141-148 | `Hand.max` raises IndexError on an empty list and otherwise keeps the first element unless a later one is greater |
| `Legacy.SeatCards` | game.py:205 | a seat's seven cards are its hole cards, the flop, the river and the turn, in that order |
| `Legacy.EvaluationsAt` | game.py:205-206 | each seat's evaluation is `Hand(all7).eval()` for its own draw |
| `Legacy.ResultsSpec` | game.py:203-206 | the results loop finishes exactly when every seat's evaluation returns, and then holds them in seat order; otherwise it raises what the first failing seat raised |
| `Legacy.WinnersSpec` | game.py:208 | the comprehension keeps exactly the seats whose result equals the maximum, in increasing seat order |
| `Legacy.GreaterScored` | game.py:271-282 | between evaluated hands `>` never raises, and is the negation of comparing category then sum |
| `Legacy.MaxFromGreatest` | game.py:208 | the built-in `max` succeeds on scored hands and returns one of them that no other outranks |
| `Legacy.PyMaxGreatest` | game.py:208 | `max(results.values())` is a result that no other result outranks |
| `Legacy.MaxFromMember` | game.py:340 | whatever `max` returns is one of its arguments |
| `Legacy.QualifiedScored` | game.py:354-575 | every qualifying hand of every class has a list as `five_best` |
| `Legacy.EvaluateScored` | game.py:329-342 | what `eval` returns is a hand whose `five_best` is a list, which `__gt__` can compare |
| `Legacy.SeatResultRule` | game.py:219-220 | a seat whose cards do not number seven raises ValueError; a seat's result is always comparable |
| `Legacy.EvaluationsScored` | game.py:205-206 | every seat result that returns is comparable |
| `Legacy.OutcomeRule` | game.py:203-209 | over evaluations that return scored hands, the pair of winners and results is as `BestCardsRule` states |
| `Legacy.BestCardsRule` | game.py:197-209 | `best_cards` raises exactly when some seat's evaluation raises, with the first such error; otherwise the results hold each seat's hand, the winners are exactly the seats whose hand equals `max(results.values())`, there is at least one winner when there is a seat, and no seat's hand outranks a winner's |
| `Legacy.EvaluateSeat` | game.py:205-206 | one step of the loop computes that seat's evaluation |
| `Legacy.EvaluateSeats` | game.py:203-206 | the results loop computes the results as stated by `ResultsSpec` |
| `Legacy.PickWinners` | game.py:208 | the comprehension computes the winners as stated by `WinnersSpec` |
| `Legacy.Table.constructor` | game.py:143-144 | `Table(num)` keeps the number of seats |
| `Legacy.Table.BestCards` | game.py:197-209 | `best_cards` returns the winners and the results as `BestCardsRule` states |
| `GameTests.HighCardFiveBest` | game_tests.py:260-265 | `HighCard` of the `high_card` fixture succeeds, and its `five_best` is A♦ K♠ 9♥ 7♦ 6♦, as the test expects; the whole resulting hand (sorted cards, `isa`) is stated |
| `GameTests.PairOfAcesFiveBest` | game_tests.py:271-275 | `Pair` of the `pair` fixture qualifies with `five_best` A♠ A♦ 9♥ 7♦ 6♦, as the test expects |
| `GameTests.ThreePairFiveBest` | game_tests.py:295-300 | `TwoPair` of the `three_pair` fixture qualifies with `five_best` Q♥ Q♦ 9♦ 9♥ J♥, as the test expects |
| `GameTests.ThreeOfAKindFiveBest` | game_tests.py:307-311 | `ThreeOfAKind` of its fixture qualifies with `five_best` A♥ A♠ A♦ 9♥ 7♦, as the test expects |
| `GameTests.StraightFiveBest` | game_tests.py:319-324 | `Straight` of the `straight` fixture qualifies with `five_best` 7♦ 6♥ 5♥ 4♠ 3♦, as the test expects |
| `GameTests.LongStraightFiveBest` | game_tests.py:326-330 | `Straight` of the `long_straight` fixture qualifies with `five_best` 9♦ 8♦ 7♦ 6♥ 5♥, as the test expects |
| `GameTests.FlushFiveBest` | game_tests.py:344-348 | `Flush` of its fixture qualifies with `five_best` A♠ K♠ 9♠ 6♠ 3♠, as the test expects |
| `GameTests.FullHouseFiveBest` | game_tests.py:355-360 | `FullHouse` of its fixture qualifies with `five_best` A♦ A♠ 3♥ 3♣ 3♦, as the test expects |
| `GameTests.StraightFlushFiveBest` | game_tests.py:378-384 | `StraightFlush` of the `straight_flush` fixture qualifies with `five_best` 7♠ 6♠ 5♠ 4♠ 3♠, as the test expects |
| `GameTests.RoyalStraightFlushFiveBest` | game_tests.py:392-396 | `StraightFlush` of the `royal_flush` fixture qualifies with `five_best` A♦ K♦ Q♦ J♦ 10♦, as the test expects |
| `GameTests.RoyalFlushFiveBest` | game_tests.py:433-436 | `RoyalFlush` of the `royal_flush` fixture, the right-hand side of `test_royal_flush_gl`, qualifies, and its `five_best` is all seven cards, highest first |
| `GameTests.PairAsHighCardFiveBest` | game_tests.py:443-446 | `HighCard` of the `pair` fixture, the right-hand side of `test_high_card_lt_pair`, has `five_best` A♠ A♦ 9♥ 7♦ 6♦ |
| `GameTests.PairOfThreesFiveBest` | game_tests.py:408-421 | `Pair` of the `pair2` fixture, used by the comparison tests, qualifies with `five_best` 3♠ 3♥ A♦ K♠ 7♦ |
| `GameTests.PairsDiffer` | game_tests.py:408-411 | the pair of aces and the pair of threes are different hands |
| `GameTests.ThreesBelowAces` | game_tests.py:413-421 | the pair of threes is `<` the pair of aces, and the aces are `>` the threes |
| `GameTests.StraightBelowFlush` | game_tests.py:423-431 | the straight is `<` the flush, and the flush is `>` the straight |
| `GameTests.StraightFlushBelowRoyalFlush` | game_tests.py:433-436 | the straight flush is `<` the royal flush, and the royal flush is `>` the straight flush |
| `GameTests.StraightBelowLongStraight` | game_tests.py:438-441 | the long straight is `>` the straight, and the straight is `<` the long straight |
| `GameTests.HighCardBelowPairAsHighCard` | game_tests.py:443-446 | `HighCard(high_card)` is `<` `HighCard(pair)`, and the converse `>` holds |
| `GameTests.RoyalFlushNotAtLeastHighCard` | game.py:284-295 | on the fixture hands, `RoyalFlush(royal_flush) > HighCard(high_card)` is True while `>=` as written is False |
| `GameTests.MaxOfThree` | game_tests.py:455-459 | `max` of the three of a kind, the straight and the pair returns the straight |
| `GameTests.PairEvaluatesToPair` | game_tests.py:465-467 | `Hand(pair)` succeeds and its `eval` returns a `Pair` hand |
| `GameTests.FourEvaluatesToFourOfAKind` | game_tests.py:469-471 | `Hand(four_of_a_kind)` succeeds and its `eval` returns a `FourOfAKind` hand |

## Left out

- `Deck.shuffle` and every random draw. `Shuffle` takes the resulting order as a parameter, and `Legacy.Table.BestCards` takes each seat's cards as a parameter.
- `Legacy.Table.BestCards`: game.py reads `self.hole_cards`, `self.flop`, `self.river` and `self.turn` inside the loop. They are properties, and each `self.deck.pop()` in them pops from a newly built and shuffled deck. So every seat gets freshly drawn hole cards and its own board, and cards may repeat, even within one seat. The model leaves what those draws produce open. Its rules hold for any draws; the rules about the detectors assume seven different cards.
- `Deck.__init__` shuffles. `Decks.Deck.constructor` stops before the shuffle, and `Shuffle` models it separately.
- Betting, the pot and the game loop: `Table._game_play`, `request_action`, the blinds, `play_game`, `play_batch`, `showdown` bookkeeping, `Player.process_turn`, `take_turn`, `check` and `fold`. They use float stakes and agents outside the core.
- `Seating.Player.Call`, `Seating.Player.Raise`: stacks are whole chips (`int`), not floats.
- `Table._rotate_players`, `Players.full_ring`, `Players.__delitem__`, `__iter__`, `__len__`, `items` and `Slave`: outside the core.
- `Tables.Table.DealPreflop`: engine.py reaches the players through `self.game.players`; the model's table holds the `Players` object directly, since `Game` is not part of this model.
- `Tables.Table.DealPreflop`: the method requires the nine seats to hold nine different player objects. Python lets one object sit at two positions; the model does not capture that aliasing.
- `Seating.Player.constructor`: the mutable default `cards=[]` is shared between calls in Python; the model passes the cards explicitly and `deepcopy` becomes a value copy.
- `Seqs.Dedup`: Python does not fix the iteration order of `set(...)`. The model keeps first occurrences in order. `sorted` is stable, so the set's order decides the order of cards of equal rank. In `Straight` (eval.py:272-275) it also decides which of two cards of equal rank at the fifth place is kept. `StraightRules.StraightDetect` states the five best through multisets and the `k` best cards, so it holds whatever order the set yields.
- `StraightRules.StraightFlushRule`, `StraightRules.RoyalFlushRule`, `EvalRules.EvaluateRule`: they hold for the first-occurrence order of `Seqs.Dedup` only. `StraightFlush` (eval.py:169-171) asserts that the Straight's list equals the Flush's. On 9♥ 8♥ 7♥ 6♥ 5♥ 5♣ 2♦ the Flush keeps 5♥, while the Straight keeps whichever 5 the set yields later. `Card.__hash__` (engine.py:81-83) hashes the suit string, and Python 3 randomises string hashes per process, so whether `StraightFlush`, `RoyalFlush` and `eval` raise AssertionError on such a hand can differ from run to run. The model fixes one outcome.
- `Counting.MostCommonFirst`, `Counting.MostCommonSecond`: ties in `most_common` go to the key seen first. That is the order of Python 3.7 and later. game.py is Python 2 code, where a `Counter` iterates in hash-slot order. For example, game.py's `Pair` (game.py:537-569) on J♠ J♥ 8♦ 6♣ 5♠ 2♥ 2♦ picks the pair of twos under CPython 2.7, giving 2 2 J J 8, while the model gives J J 8 6 5. So for game.py's hands, the choice of the highest pair or triple in `HandRules.PairDetect`, `HandRules.TwoPairDetect`, `HandRules.ThreeDetect` and `HandRules.FullHouseDetect`, and with it the winners of `Legacy.BestCardsRule`, holds under the first-occurrence order only.
- `Seating.Players.New`: Python keeps the caller's dict (player.py:242) and adds the `EmptySeat`s to it in place (player.py:244-246), so the caller's dict changes. The default `iterable={}` (player.py:230) is one dict shared by every `Players()` call, so two default-built objects share their seats and `EmptySeat` objects, and a `__setitem__` on one shows in the other. The model copies the map and captures neither effect.
- `Evaluator.Max`: `Hand.max` raises TypeError when its argument is not a list (eval.py:142-143). The model's parameter is a sequence of hands, so that error cannot arise.
- Hand equality, which `best_cards` uses to find the winners, is equality of class and fields. This matches `__eq__` comparing `__dict__` for one class; for two different classes Python falls back to identity, which is also false.
- game.py line 65 and line 123 add a list and a `range`, which works only in Python 2. The model follows the Python 2 meaning: the ranks accepted are 'A', 'K', 'Q', 'J' and 2..10. Under Python 3 every game.py card would raise TypeError.
- game.py's `Deck` (lines 93-139) duplicates engine.py's `Deck`; only engine.py's is modelled. game.py from line 600 on is a second, older version of the module after a merge-conflict marker; it is not part of this model.
- `__str__`, `__repr__`, `__hash__` and logging are not modelled, except `str(card)`, which `place` uses.
- game_tests.py: `PairTests.test_high_card`, `TwoPairTests.test_two_pair`, `StraightTests.test_high_card` and `FourOfAKindTests.test_four_of_a_kind` are not stated on their fixtures. The rule lemmas `HandRules.PairRule`, `HandRules.TwoPairRule`, `StraightRules.StraightRule` and `HandRules.FourRule` give the behaviour they sample.
- game_tests.py: `test_equiv` builds one hand twice; constructors are functions here, so the two are equal without a lemma. `test_class_level_comparison` asserts nothing. `TableTests` print the result of `best_cards` and check `len`, which counts newly drawn hole cards; those draws are left open, as stated above.

## Findings

| source | as written | input that shows it | evidently intended | confidence | as-written member | corrected member |
|---|---|---|---|---|---|---|
| poker_simulations/eval.py:81-92 | `__ge__` repeats the body of `__le__`, so `a >= b` returns `a <= b` (also game.py:284-295) | `a = RoyalFlush(royal_flush)` and `b = HighCard(high_card)`, on the fixture hands of game_tests.py: `a > b` is True, yet `a >= b` is False | `a >= b` is `b <= a`, the negation of `a < b` | not executed | `GameTests.RoyalFlushNotAtLeastHighCard` | `EvalRules.GreaterEqualIntended` |
