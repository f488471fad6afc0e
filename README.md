# A verified model of the Wild Poker back end

This project models the rule logic of a poker site's back end. That logic lives in
three places:

- `src/game/`: the table engine. It covers cards and the deck, the seats, the hand
  driver that posts blinds and deals the streets, the table with its roster, and the
  socket layer's join and create rules.
- The lobby and room services, with the room controller.
- The tournament-status function, and the notification de-duplication cache with its
  configuration.

Each source file has its own module:

| module | file | source |
|---|---|---|
| `Cards` | card.dfy | src/game/card.ts |
| `Deck` | deck.dfy | src/game/DeckOfCards.ts |
| `Hands` | player_hand.dfy | src/game/playerHand.ts |
| `Players` | player.dfy | src/game/player.ts |
| `Evaluator` | hand_evaluator.dfy | src/game/handEvaluator.ts |
| `PokerTable` | poker_table.dfy | src/game/pokerGame.ts and src/game/pokerHand.ts (they import each other, so both classes share one module) |
| `Seats` | seats.dfy | the seat invariant of `PokerHand` |
| `PokerSocket` | poker_socket.dfy | src/game/pokerSocket.ts |
| `RoomRecords` | room_record.dfy | src/models/room.model.ts (the room record as a value) |
| `RoomManagement` | room_management.dfy | src/services/room-management.service.ts |
| `RoomController` | room_controller.dfy | src/controllers/room.controller.ts |
| `TournamentStatus` | tournament_status.dfy | src/services/tournamentStatus.service.ts |
| `NotificationDedup` | notification_dedup.dfy | src/services/notification-deduplication.service.ts |
| `NotificationConfig` | notification_config.dfy | src/config/notification.config.ts |
| `Common` | common.dfy | shared helpers: sums, first and last index, decimal rendering of a number |

The model keeps the shape of the code:

- **Pure code becomes functions over datatypes.** This covers the card renderers,
  the room rules, the tournament status and the configuration.
- **Objects whose methods update fields become classes.** These are `DeckOfCards`,
  `Player`, `PokerGame`, `PokerHand`, the socket layer's room registry and the
  de-duplication cache. Their methods carry `modifies` clauses and state the new
  state.
- **The in-place algorithms keep their arrays.** These are the 52-swap shuffle and
  the insertion sort of hand ranks.

The clock, `Math.random` and the database are parameters of the model:

- a time `now`;
- a nondeterministic choice within the range the code draws from;
- a boolean saying whether a recent matching notification was already stored.

The evaluator's comments (src/game/handEvaluator.ts:18-55) describe a real ranking, from straight flush = 8 down to high card = 0. The code has placeholder rankers that yield `null`, and the model follows the code. Two more points where the model follows the code as written:

- the shuffle swaps each slot with the slot `Math.round(Math.random() * 51)` (src/game/DeckOfCards.ts:30-37);
- `deal` has no end-of-deck check.

## Model

| member | source | states |
|---|---|---|
| Cards.NumberToString | src/game/card.ts:21-38 | a rank has a name exactly when it is in 2..14 |
| Cards.NumberNameRoundTrip | src/game/card.ts:21-38 | every rank's name reads back as that rank, so no two ranks share a name |
| Cards.NumberNamesDistinct | src/game/card.ts:21-38 | distinct ranks have distinct names |
| Cards.AbbreviatedString | src/game/card.ts:40-61 | the abbreviation is 3 characters for a ten and 2 otherwise, and ends in the lower-case suit letter |
| Cards.AbbreviationRoundTrip | src/game/card.ts:40-61 | parsing an abbreviation gives back the card |
| Cards.AbbreviationInjective | src/game/card.ts:40-61 | two cards with the same abbreviation are the same card |
| Cards.CardToString | src/game/card.ts:63-92 | the long name is the rank's name, " of ", then one of the four suit names |
| Cards.CardToPNG | src/game/card.ts:94-108 | the file name is the decimal rank, the upper-case suit letter, then ".png" |
| Cards.AceOfSpadesPNG | src/game/card.ts:94-108 | the ace of spades is "14S.png" |
| Cards.PNGInjective | src/game/card.ts:94-108 | two cards with the same file name are the same card |
| Cards.PNGHasNoSpace | src/game/card.ts:94-108 | a card's file name contains no space, so two of them joined by a space can be split again |
| Deck.CanonicalDeck | src/game/DeckOfCards.ts:9-20 | the canonical deck has 52 cards |
| Deck.CardIndex | src/game/DeckOfCards.ts:15-19 | every card has a slot below 52 in the canonical deck |
| Deck.CanonicalDeckIndex | src/game/DeckOfCards.ts:15-19 | slot 13·suit + rank − 2 holds that card, so slots and cards correspond one to one |
| Deck.CanonicalDeckDistinct | src/game/DeckOfCards.ts:9-20 | the 52 canonical cards are pairwise distinct |
| Deck.PermutationOfCanonicalIsDistinct | src/game/DeckOfCards.ts:30-38 | any rearrangement of the canonical deck still has 52 distinct cards |
| Deck.DeckOfCards.constructor | src/game/DeckOfCards.ts:9-20 | a new deck is the canonical order with the cursor at 0 |
| Deck.DeckOfCards.GetSuits | src/game/DeckOfCards.ts:22-24 | the suits are spades, clubs, hearts, diamonds, in that order |
| Deck.DeckOfCards.Shuffle | src/game/DeckOfCards.ts:30-38 | the shuffle leaves the multiset of cards unchanged, and does not touch the cursor |
| Deck.DeckOfCards.Deal | src/game/DeckOfCards.ts:40-42 | deal returns the card under the cursor, advances the cursor by one and leaves the cards in place |
| Deck.DealtCardsDistinct | src/game/DeckOfCards.ts:30-42 | any two different slots of a deck, shuffled or not, hold different cards, so deals never repeat a card |
| Deck.DealTwoFromNewDeck | src/game/DeckOfCards.ts:40-42 | the first two deals from a new deck are the two and three of spades |
| Hands.GetStringHand | src/game/playerHand.ts:20-22 | the long hand starts with the first card's name, ends with the second's, and has " and " between them |
| Hands.GetPNGHand | src/game/playerHand.ts:24-26 | the image string is the first card's file name, one space, then the second card's file name |
| Hands.PNGHandInjective | src/game/playerHand.ts:24-26 | two hands with the same file-name string hold the same cards in the same order |
| Players.Player.constructor | src/game/player.ts:18-31 | a new seat has the given name, stack, socket and room, no hand, "undefined" as last action, nothing in the pot, and is neither all in nor to act |
| Players.Player.SetHasHand | src/game/player.ts:33-35 | the flag becomes the argument and nothing else changes |
| Players.Player.SetTurn | src/game/player.ts:41-43 | the turn flag becomes the argument and nothing else changes |
| Players.Player.SetAllIn | src/game/player.ts:53-55 | the seat is all in afterwards, whatever it was before, and nothing else changes |
| Players.Player.MinusFromStack | src/game/player.ts:57-59 | the stack drops by exactly the amount and stays non-negative |
| Players.Player.AddToStack | src/game/player.ts:65-67 | the stack grows by exactly the amount, so it undoes MinusFromStack |
| Players.Player.AddCurrMoneyInPot | src/game/player.ts:69-71 | the hand contribution grows by the amount |
| Players.Player.SetCurrMoneyInPot | src/game/player.ts:77-79 | the hand contribution becomes the argument |
| Players.Player.AddCurrMoneyInBettingRound | src/game/player.ts:85-87 | the round contribution grows by the amount |
| Players.Player.SetCurrMoneyInBettingRound | src/game/player.ts:89-91 | the round contribution becomes the argument |
| Players.Player.SetValTurn | src/game/player.ts:93-95 | the last action becomes the argument |
| Players.Player.ResetInfo | src/game/player.ts:121-126 | both contributions become 0, the last action "undefined", the seat is no longer all in, and the stack, hand and turn flag are untouched |
| Players.Player.SetHand | src/game/player.ts:128-130 | the seat holds exactly the two cards, in order |
| Players.MoveChipsAndBack | src/game/player.ts:57-71 | taking chips from the stack and giving them back restores the stack, while the pot contribution keeps the amount |
| Evaluator.BetterHand | src/game/handEvaluator.ts:63-76 | a winner exists only when both values are truthy and differ, and it is the hand with the strictly larger value |
| Evaluator.BetterHandSymmetric | src/game/handEvaluator.ts:63-76 | the comparison does not depend on the order of the two hands |
| Evaluator.PreflopDescription | src/game/handEvaluator.ts:81-88 | equal ranks give "Pair of: <name>'s"; otherwise "High Card: " lists the higher card first |
| Evaluator.PreflopDescriptionOrderFree | src/game/handEvaluator.ts:81-88 | the preflop description does not depend on the order of the hole cards |
| Evaluator.PostflopDescription | src/game/handEvaluator.ts:90-91 | a missing or zero hand value is described as "Invalid hand" |
| Evaluator.HandEvaluator.constructor | src/game/handEvaluator.ts:14-16 | the evaluator starts with the given board |
| Evaluator.HandEvaluator.EvaluateHandNumberValue | src/game/handEvaluator.ts:21-59 | every category helper is a placeholder, so no hand gets a value |
| Evaluator.HandEvaluator.ReturnBestHand | src/game/handEvaluator.ts:63-76 | with no hand values, no hand is ever reported better |
| Evaluator.HandEvaluator.EvaluateHandForString | src/game/handEvaluator.ts:79-161 | an empty board gives the preflop description, and any other board gives "Invalid hand" |
| Evaluator.HandEvaluator.UpdateBoard | src/game/handEvaluator.ts:209-228 | after an update the board and its size are the new board's |
| Evaluator.HandEvaluator.CardNumberIsOnTheBoard | src/game/handEvaluator.ts:213-220 | true exactly when some board card has that rank |
| Evaluator.HandEvaluator.InsertionSort | src/game/handEvaluator.ts:230-241 | the same array comes back, sorted ascending, with the same multiset of ranks |
| Evaluator.HandEvaluator.InsertKey | src/game/handEvaluator.ts:231-239 | one outer step extends the sorted prefix by one slot and permutes the array |
| Evaluator.HandEvaluator.ShiftLarger | src/game/handEvaluator.ts:233-237 | the inner loop moves exactly the larger ranks one slot right and stops above a rank no larger than the key |
| Evaluator.HandEvaluator.ReturnArrayOfSortedBoardAndHandCards | src/game/handEvaluator.ts:243-256 | a fresh array of board size + 2 ranks, sorted, holding the board's ranks and both hole-card ranks |
| Evaluator.ShiftedInsertPermutes | src/game/handEvaluator.ts:234-238 | shifting and dropping the key into the gap permutes the array |
| Evaluator.ShiftedInsertSorts | src/game/handEvaluator.ts:234-238 | dropping the key into the gap sorts one more slot |
| PokerTable.PokerGame.constructor | src/game/pokerGame.ts:40-55 | a new table has a fresh canonical deck, no players, no host, no hand, zero blinds and a 10-second turn time |
| PokerTable.PokerGame.SetSmallBlind | src/game/pokerGame.ts:58-60 | the small blind becomes the amount |
| PokerTable.PokerGame.SetBigBlind | src/game/pokerGame.ts:62-64 | the big blind becomes the amount |
| PokerTable.PokerGame.SetPassword | src/game/pokerGame.ts:66-68 | the password becomes the argument |
| PokerTable.PokerGame.SetDefaultStackSize | src/game/pokerGame.ts:70-72 | the default stack becomes the argument |
| PokerTable.PokerGame.NewHand | src/game/pokerGame.ts:74-76 | a new hand seats exactly the players who had chips, with the dealer at the table's dealer index modulo their number, and the roster untouched |
| PokerTable.PokerGame.Shuffle | src/game/pokerGame.ts:110-112 | the deck's cards are permuted and nothing else changes |
| PokerTable.PokerGame.SetBegun | src/game/pokerGame.ts:118-120 | the begun flag becomes the argument |
| PokerTable.PokerGame.PlayerJoin | src/game/pokerGame.ts:123-129 | the player joins at the end, becomes host only when there was none, and the count follows the roster |
| PokerTable.PokerGame.PlayerLeave | src/game/pokerGame.ts:132-149 | an unknown socket changes nothing and gives null; otherwise the first seat with that socket is removed and returned, the others keep their order, and the host is the new first seat or null |
| PokerTable.PokerGame.RemoveSeat | src/game/pokerGame.ts:137-143 | removing seat i keeps the rest in order and keeps the host and count consistent |
| PokerTable.PokerGame.GetCurrentUser | src/game/pokerGame.ts:152-159 | the first seat with that socket, or null when none has it |
| PokerTable.PokerGame.CheckIfSockIDisInGame | src/game/pokerGame.ts:208-215 | true exactly when some seat has that socket |
| PokerTable.PokerGame.CheckIfNameIsInGame | src/game/pokerGame.ts:199-206 | true exactly when some seat has that name |
| PokerTable.PokerGame.GetEligiblePlayers | src/game/pokerGame.ts:169-177 | the result is the order-preserving filter of the seats with a positive stack |
| PokerTable.EligibleFilter | src/game/pokerGame.ts:169-177 | the filtered seats are exactly the seats with chips, no more of them than seats, and still distinct |
| PokerTable.PokerGame.GetAllNames | src/game/pokerGame.ts:179-185 | entry i is seat i's name |
| PokerTable.PokerGame.GetAllStackSizes | src/game/pokerGame.ts:187-193 | entry i is seat i's stack |
| PokerTable.PokerGame.DealHands | src/game/pokerGame.ts:231-237 | every seat with chips gets the next two cards in seat order, a seat without chips keeps its hand, and the cursor moves two per dealt seat |
| PokerTable.PokerGame.DealNextSeat | src/game/pokerGame.ts:232-236 | one loop step deals the seat its two cards if it has chips, and touches no other seat |
| PokerTable.PokerGame.DealToSeat | src/game/pokerGame.ts:234 | the seat gets the two cards under the cursor, in order, and the cursor moves by two |
| PokerTable.DealSlotsCount | src/game/pokerGame.ts:231-237 | seat i's cards start at the cursor plus twice the number of earlier seats with chips |
| PokerTable.DealSlotsStep | src/game/pokerGame.ts:231-237 | the next seat's slot is two further exactly when this seat has chips |
| PokerTable.PokerGame.DealCard | src/game/pokerGame.ts:239-241 | the table deals the card under its deck's cursor and advances it by one |
| PokerTable.PokerGame.ReturnDisplayHands | src/game/pokerGame.ts:243-265 | one entry per seat with its name and its hand's file names, or nothing when it holds no hand |
| PokerTable.PokerGame.IncreaseDealerPosition | src/game/pokerGame.ts:267-269 | the dealer index grows by one |
| PokerTable.PokerGame.ClearPlayersInfo | src/game/pokerGame.ts:272-276 | every seat ends with both contributions 0, last action "undefined" and not all in |
| PokerTable.PokerGame.EmitPlayers | src/game/pokerGame.ts:278-316 | the dealer position, then one entry per seat mirroring it; a seat shows the card back exactly when it holds no hand |
| PokerTable.CardPNGIsNotBack | src/game/pokerGame.ts:292-298 | no card's file name is the card-back image |
| PokerTable.PokerGame.ClearGame | src/game/pokerGame.ts:319-335 | every seat is reset, the dealer index and hand number grow by one, there is no hand, and a fresh shuffled deck with cursor 0 is installed |
| PokerTable.PokerGame.NewShuffledDeck | src/game/pokerGame.ts:322-326 | the table gets a new deck of 52 distinct cards with its cursor at 0 |
| PokerTable.NextSeatWraps | src/game/pokerHand.ts:301-312 | the seat after a named player is the next index, with the last seat wrapping to the first |
| PokerTable.NextSeatCyclic | src/game/pokerHand.ts:301-312 | with distinct names, the seat after seat i is seat (i + 1) mod n |
| PokerTable.SeatsAfterDealer | src/game/pokerHand.ts:30-38 | one, two and three steps after the dealer are seats d + 1, d + 2 and d + 3 mod n |
| PokerTable.NeighbourSeatsDiffer | src/game/pokerHand.ts:183-199 | with at least two seats, the small-blind and big-blind positions differ |
| PokerTable.PokerHand.constructor | src/game/pokerHand.ts:30-48 | the hand seats the table's players with chips, with the dealer at the table's index mod their number, the big blind two seats on and the first to act after it; the board and pot start empty |
| PokerTable.PokerHand.BlindSeatPositions | src/game/pokerHand.ts:183-199 | the small blind sits at (d + 1) mod n and the big blind at (d + 2) mod n, and they differ when n ≥ 2 |
| PokerTable.PokerHand.DistinctNamesPostBothBlinds | src/game/pokerHand.ts:183-210 | with distinct names and two or more seats, each blind is taken from its own seat's stack |
| PokerTable.PokerHand.GetNextPlayer | src/game/pokerHand.ts:301-312 | the seat after the given one by name, cyclically, or the first seat for an unknown name |
| PokerTable.PokerHand.GetIndexOfPlayer | src/game/pokerHand.ts:264-272 | the first seat with that name, or −1 |
| PokerTable.PokerHand.LessThanTwoCanPlay | src/game/pokerHand.ts:274-282 | true exactly when fewer than two seats are not all in |
| PokerTable.CountFalseTwo | src/game/pokerHand.ts:274-282 | at least two seats not all in means two distinct seats that are not all in |
| PokerTable.CanActIsCountFalse | src/game/pokerHand.ts:274-282 | the heap count of seats able to act equals the count over their all-in flags |
| PokerTable.PokerHand.CheckIfPlayersLeftToAct | src/game/pokerHand.ts:284-299 | true exactly when some seat has not acted yet or the action has not come back to the last raiser; otherwise the seat to act loses its turn flag |
| PokerTable.PokerHand.UpdatePlayersLeftInHand | src/game/pokerHand.ts:314-323 | the seats still in are the order-preserving filter without folds, and the hand's seats are unchanged |
| PokerTable.StillInMembers | src/game/pokerHand.ts:314-323 | a seat is still in exactly when it is in the hand and has neither folded nor auto-folded |
| PokerTable.StillInAppend | src/game/pokerHand.ts:314-323 | the filter distributes over concatenation, so it keeps the seat order |
| PokerTable.PokerHand.ClearMoves | src/game/pokerHand.ts:325-338 | all-in seats get "playerIsAllIn"; the rest get "check" when fewer than two can act, and "undefined" with a zero round contribution otherwise |
| PokerTable.PokerHand.ClearNextMove | src/game/pokerHand.ts:326-337 | one step of that loop clears the next seat the same way |
| PokerTable.PokerHand.FewCanPlay | src/game/pokerHand.ts:330 | the loop's test is the same count of seats not all in, taken before any seat changes |
| PokerTable.BlindAmount | src/game/pokerHand.ts:186 | a seat without chips posts nothing; otherwise it posts the blind, or its whole stack when that is smaller |
| PokerTable.BlindsPosted | src/game/pokerHand.ts:59-61 | the pot's gain from both blinds: one seat posting both never pays more than its stack, and two seats pay at most their stacks and at most the two blinds |
| PokerTable.PokerHand.PostBlind | src/game/pokerHand.ts:183-209 | the posted amount leaves the stack and goes into the pot and both of the seat's contributions, so stacks plus pot are conserved |
| PokerTable.PokerHand.CollectSmallBlind | src/game/pokerHand.ts:183-195 | the small-blind seat posts the small blind that way, and the board and table are untouched |
| PokerTable.PokerHand.CollectBigBlind | src/game/pokerHand.ts:197-209 | the big-blind seat posts the big blind that way, and the board and table are untouched |
| PokerTable.PokerHand.DealFlop | src/game/pokerHand.ts:211-218 | the next three deck cards are appended to the board |
| PokerTable.PokerHand.DealTurn | src/game/pokerHand.ts:220-225 | the next deck card is appended to the board |
| PokerTable.PokerHand.DealRiver | src/game/pokerHand.ts:227-232 | the next deck card is appended to the board |
| PokerTable.PokerHand.StartBettingRound | src/game/pokerHand.ts:102-115 | a new round has no bet, no raiser, the seat after the dealer to act, and every seat's move cleared |
| PokerTable.PokerHand.ResetAction | src/game/pokerHand.ts:102-115 | the bet is 0, there is no raiser, and the seat after the dealer is to act |
| PokerTable.PokerHand.AdvanceStreet | src/game/pokerHand.ts:99-151 | the hand moves to the next street, with 3, 1 or 1 new cards off the deck and a fresh round |
| PokerTable.PokerHand.FlopRound | src/game/pokerHand.ts:99-116 | preflop becomes the flop: three cards dealt, bet 0, the seat after the dealer to act, no raiser, moves cleared |
| PokerTable.PokerHand.TurnRound | src/game/pokerHand.ts:117-133 | the flop becomes the turn: one card dealt and a fresh round |
| PokerTable.PokerHand.RiverRound | src/game/pokerHand.ts:134-150 | the turn becomes the river: one card dealt and a fresh round |
| PokerTable.PokerHand.ShowFlop | src/game/pokerHand.ts:99-116 | the flop's cards are dealt and the street flags move one step |
| PokerTable.PokerHand.ShowTurn | src/game/pokerHand.ts:117-133 | the turn card is dealt and the street flags move one step |
| PokerTable.PokerHand.ShowRiver | src/game/pokerHand.ts:134-150 | the river card is dealt and the street flags move one step |
| PokerTable.PokerHand.AwardLastSeat | src/game/pokerHand.ts:76-90 | the last seat in the hand wins the pot, the hand is complete and the table is cleared for the next hand |
| PokerTable.PokerHand.CalculateAndAwardPots | src/game/pokerHand.ts:159-164 | the showdown completes the hand and clears the table; no chips move |
| PokerTable.PokerHand.RunHand | src/game/pokerHand.ts:54-70 | with fewer than two seats nothing happens; otherwise the pot gains both blinds, the big blind taken from what the small blind left when one seat posts both |
| PokerTable.PokerHand.PlayHand | src/game/pokerHand.ts:58-69 | with two or more seats the pot gains both blinds, also when both fall on one seat |
| PokerTable.PokerHand.BlindsAndDeal | src/game/pokerHand.ts:59-64 | both blinds are posted, also from one seat, the bet is the big blind, the big blind is the last raiser, and cards are dealt |
| PokerTable.PokerHand.CollectBlinds | src/game/pokerHand.ts:59-61 | the small blind then the big blind are posted, from one stack when both fall on one seat; chips are conserved, and the bet becomes the big blind |
| PokerTable.PokerHand.DealRound | src/game/pokerHand.ts:63-67 | every table seat with chips holds a hand, the big blind is the last raiser, and at most two cards per seat leave the deck |
| PokerTable.PokerHand.DealCards | src/game/pokerHand.ts:63-64 | the deck is permuted, then every table seat with chips holds the two cards at its `DealSlots` slot of the shuffled deck, seats without chips keep their hand, and the cursor moves two per dealt seat |
| PokerTable.PokerHand.RaiseFromBigBlind | src/game/pokerHand.ts:67 | the big-blind seat becomes the last raiser |
| PokerTable.PokerHand.UpdateHand | src/game/pokerHand.ts:72-157 | one seat left wins the pot and ends the hand; a round not yet closed changes nothing; a closed round moves to the next street or, after the river, to the showdown |
| PokerTable.PokerHand.ContinueHand | src/game/pokerHand.ts:92-156 | the same rules for a hand with more than one seat left |
| PokerTable.PokerHand.EndRound | src/game/pokerHand.ts:98-155 | a closed round deals the next street, or goes to the showdown after the river |
| PokerTable.PokerHand.GetCardPNGs | src/game/pokerHand.ts:340-347 | entry i is the file name of board card i |
| PokerSocket.JoinReply | src/game/pokerSocket.ts:21-29 | joining succeeds exactly for an unused name, the right password and a positive stack, and the checks fail in that order |
| PokerSocket.JoinReplies | src/game/pokerSocket.ts:16-35 | one reply per lobby with the requested name, and none when no lobby has it |
| PokerSocket.JoinRepliesOfUniqueLobby | src/game/pokerSocket.ts:16-35 | with distinct lobby names there is exactly one reply, the matching lobby's |
| PokerSocket.CreateReply | src/game/pokerSocket.ts:45-53 | creation succeeds exactly for an unused name, a positive stack and a small blind no larger than the big one, checked in that order |
| PokerSocket.PokerRooms.constructor | src/game/pokerSocket.ts:11 | the registry starts empty |
| PokerSocket.PokerRooms.JoinAttempt | src/game/pokerSocket.ts:16-35 | the replies are the matching lobbies' replies, plus "not found" when no lobby matches; no room changes |
| PokerSocket.PokerRooms.ReplyTo | src/game/pokerSocket.ts:21-29 | a lobby's reply is computed from its roster names and password |
| PokerSocket.PokerRooms.CreateAttempt | src/game/pokerSocket.ts:37-54 | the reply depends on whether the name is taken and on the stack and blinds; no room changes |
| PokerSocket.PokerRooms.CreateRoom | src/game/pokerSocket.ts:56-63 | a fresh, empty, not begun game with the given settings is appended, the other rooms unchanged, and no duplicate check is made |
| PokerSocket.PokerRooms.JoinRoom | src/game/pokerSocket.ts:65-97 | when a lobby has that name, a fresh seat with the name, stack and socket joins the last such lobby and no other room changes; otherwise nothing changes |
| PokerSocket.PokerRooms.FindGame | src/game/pokerSocket.ts:71-76 | the last room with that name, or null |
| PokerSocket.PokerRooms.SeatIn | src/game/pokerSocket.ts:89-90 | the seat joins that game only |
| PokerSocket.PokerRooms.GetGameFromSockID | src/game/pokerSocket.ts:149-156 | the first room whose roster holds the socket, or null |
| PokerSocket.PokerRooms.Disconnect | src/game/pokerSocket.ts:99-111 | the socket's seat leaves the first room holding it, the rest of that roster keeps its order, and no other room changes |
| PokerSocket.PokerRooms.Unseat | src/game/pokerSocket.ts:102-106 | the first seat with the socket leaves that game, and only that game changes |
| PokerSocket.PokerRooms.StartGame | src/game/pokerSocket.ts:113-119 | the first room holding the socket is marked begun, and no other room changes |
| PokerSocket.PokerRooms.MarkBegun | src/game/pokerSocket.ts:115-117 | that game is marked begun, and no other room changes |
| PokerSocket.CreateJoinAndRetry | src/game/pokerSocket.ts:16-54 | creating a lobby twice is refused, and joining twice under one name is refused as a taken name |
| RoomRecords.ParseState | src/models/room.model.ts:47 | a string names a state exactly when it is one of the four stored names, and it parses to that state |
| RoomManagement.RoomsNeeded | src/services/room-management.service.ts:65-80 | the fewest rooms leaving at most four players over; between total/8 and total/8 + 1, and 0 for four players or fewer |
| RoomManagement.RoomsNeededMonotone | src/services/room-management.service.ts:65-80 | more players never need fewer rooms |
| RoomManagement.RoomsToCreate | src/services/room-management.service.ts:86-92 | rooms are created only when fewer are open than needed and no more than 50 are needed, and then exactly the shortfall |
| RoomManagement.MonitorPlan | src/services/room-management.service.ts:30-92 | nothing happens during late registration unless the tournament is running; otherwise the shortfall is created |
| RoomManagement.MonitorSettles | src/services/room-management.service.ts:86-92 | after the created rooms open, the next check creates none, and the need is met whenever it is within the cap |
| RoomManagement.GenerateRoomPassword | src/services/room-management.service.ts:247-254 | the password has 8 characters, each a letter or a digit |
| RoomManagement.CreateRoomForTournament | src/services/room-management.service.ts:173-191 | a new room is waiting, empty, owned by the system user, holds 8 with a minimum of 2, and has a password of the right shape |
| RoomManagement.CreateRooms | src/services/room-management.service.ts:90-92 | one such room per new id, in order |
| RoomManagement.InitialAssignmentsOfDistinct | src/services/room-management.service.ts:204-208 | with distinct room ids, each room's initial list is its members |
| RoomManagement.IsAssigned | src/services/room-management.service.ts:214-220 | true exactly when the player is in some room's list |
| RoomManagement.DistributePlayersToRooms | src/services/room-management.service.ts:196-242 | the resulting lists are the round-robin distribution of the players over the rooms |
| RoomManagement.PlaceOne | src/services/room-management.service.ts:222-238 | one player is skipped if already placed, and otherwise appended to the room the counter points at when it has space; the counter advances either way |
| RoomManagement.DistributeProperties | src/services/room-management.service.ts:212-239 | existing members keep their order, each newcomer is appended to at most one room, already placed players are skipped, and with distinct ids no room goes past its capacity |
| RoomManagement.DistributeFromWithinCapacity | src/services/room-management.service.ts:224-228 | a room at or over capacity gains nobody, and no room is taken past it |
| RoomManagement.DistributeFromRoundRobin | src/services/room-management.service.ts:211-237 | the counter advances once per unplaced player, full room or not |
| RoomManagement.DistributeKeepsRoomsWellFormed | src/services/room-management.service.ts:224-228 | a room with no repeats within its capacity stays so after the distribution |
| RoomManagement.RoomStateDecision | src/services/room-management.service.ts:123-160 | a full waiting room starts playing and a playing room under four members is disbanded |
| RoomManagement.UpdateRoomState | src/services/room-management.service.ts:123-160 | only the state changes, exactly when a decision applies; a full waiting room becomes playing, a playing room under four members becomes cancelled; cancellation comes only from playing, and playing only from waiting |
| RoomManagement.UpdateRoomStates | src/services/room-management.service.ts:112-161 | every room gets that update |
| RoomManagement.UpdateRoomStateSettles | src/services/room-management.service.ts:123-160 | for rooms holding four or more, a second pass changes nothing |
| RoomManagement.UpdateRoomStateSmallRoom | src/services/room-management.service.ts:126-143 | a full waiting room of capacity two starts playing and is disbanded on the next pass |
| RoomController.JoinRoom | src/controllers/room.controller.ts:80-147 | a join succeeds exactly for an authenticated user (an id present and not 0), an existing room, the right password, a non-member, space and a waiting room; the first failing check rejects; success appends the user once |
| RoomController.JoinKeepsWellFormed | src/controllers/room.controller.ts:109-123 | a successful join keeps the room within capacity with the user in it once |
| RoomController.JoinTwiceRejected | src/controllers/room.controller.ts:102-106 | joining again right after a successful join is refused as already a member |
| RoomController.Without | src/controllers/room.controller.ts:173 | removal keeps exactly the other members |
| RoomController.Departure | src/controllers/room.controller.ts:172-191 | the room is deleted when nobody remains; otherwise the user is gone, a departing creator is replaced by the first remaining member, and nothing else changes |
| RoomController.DepartureKeepsWellFormed | src/controllers/room.controller.ts:183-191 | a departure keeps a well-formed room well formed, and the creator stays a member |
| RoomController.LeaveRoom | src/controllers/room.controller.ts:150-191 | an unauthenticated user, a missing room and a non-member are refused; otherwise the departure applies |
| RoomController.LeaveAfterJoin | src/controllers/room.controller.ts:96-191 | leaving right after joining gives back the room as it was, or deletes it when it was empty |
| RoomController.AllowedNext | src/controllers/room.controller.ts:256-261 | no state may move to itself or back to waiting |
| RoomController.UpdateRoomState | src/controllers/room.controller.ts:232-270 | only the creator may change the state, and only along the transition table; the new state is the requested one |
| RoomController.TransitionsOnlyMoveForward | src/controllers/room.controller.ts:256-268 | a change starts from waiting or playing, never stays put, and never returns to waiting |
| RoomController.AutomaticUpdatesAreAllowed | src/controllers/room.controller.ts:256-261 | every change the lobby service makes is one the controller's table allows |
| RoomController.DeleteRoom | src/controllers/room.controller.ts:385-407 | only the creator may delete a room |
| RoomController.LeaveTournament | src/controllers/room.controller.ts:328-375 | an authenticated user leaves every room they are in, under the same removal, deletion and creator rule; no remaining room keeps them |
| TournamentStatus.GetTournamentStatus | src/services/tournamentStatus.service.ts:55-69 | completed once the end is strictly past, running once late registration has strictly ended, registering otherwise, and never cancelled |
| TournamentStatus.StatusMonotoneInTime | src/services/tournamentStatus.service.ts:55-69 | as the clock advances, the status never goes back |
| TournamentStatus.NoRunningWhenLateRegOutlasts | src/services/tournamentStatus.service.ts:55-69 | when late registration ends no earlier than the tournament, it is never running |
| TournamentStatus.StatusWrites | src/services/tournamentStatus.service.ts:14-45 | a write is issued for exactly the active tournaments whose computed status differs, each from the stored status to the computed one |
| TournamentStatus.UpdateTournamentStatuses | src/services/tournamentStatus.service.ts:14-45 | only the status of active tournaments changes, to the computed one |
| TournamentStatus.UpdateSettles | src/services/tournamentStatus.service.ts:14-45 | a second update at the same instant writes nothing |
| NotificationDedup.NotificationKey | src/services/notification-deduplication.service.ts:13-23 | the key starts with "<user>_<type>" and is longer exactly when both the tournament and the reminder type are truthy |
| NotificationDedup.KeyIdentifiesNotification | src/services/notification-deduplication.service.ts:13-23 | equal keys for one type mean the same user and, when a reminder is named, the same tournament and reminder |
| NotificationDedup.Cleaned | src/services/notification-deduplication.service.ts:84-95 | the clean-up keeps exactly the entries at most 24 hours old, with their times |
| NotificationDedup.CleanedProperties | src/services/notification-deduplication.service.ts:84-95 | cleaning twice is cleaning once, and an entry just marked always survives |
| NotificationDedup.WindowOrDefault | src/services/notification-deduplication.service.ts:106 | a truthy window is used as given; otherwise the type's default window |
| NotificationDedup.DedupCache.constructor | src/services/notification-deduplication.service.ts:7 | the cache starts empty |
| NotificationDedup.DedupCache.HasNotificationBeenSent | src/services/notification-deduplication.service.ts:28-63 | sent exactly when the cache holds the key strictly within the window, or the database has a recent copy |
| NotificationDedup.DedupCache.MarkNotificationAsSent | src/services/notification-deduplication.service.ts:68-79 | the key is set to now and the cache is then cleaned |
| NotificationDedup.DedupCache.CleanupCache | src/services/notification-deduplication.service.ts:84-95 | the cache becomes its cleaned version |
| NotificationDedup.DedupCache.CreateTournamentNotificationWithDeduplication | src/services/notification-deduplication.service.ts:100-140 | a reminder already sent creates and marks nothing; otherwise one unsent reminder is created and its four-part key marked |
| NotificationDedup.DedupCache.CreateSystemNotificationWithDeduplication | src/services/notification-deduplication.service.ts:145-180 | the same rule for system notices, under the two-part key |
| NotificationDedup.ReminderCreatedOnce | src/services/notification-deduplication.service.ts:100-140 | a reminder requested twice within an hour is created at most once |
| NotificationConfig.GetDeduplicationWindow | src/config/notification.config.ts:49-62 | 30 minutes for tournament creation, and 60 for every other type, known or not |
| NotificationConfig.WindowBounds | src/config/notification.config.ts:49-62 | every window lies between 1 and 60 minutes |
| NotificationConfig.ReminderScheduleOrdered | src/config/notification.config.ts:12-18 | the reminders come by strictly decreasing lead time, end at the start, and have distinct types |
| NotificationConfig.ValidateNotificationData | src/config/notification.config.ts:65-74 | a payload is valid exactly when it exists, has a type, and has a title and a body of 1 to 200 characters |
| NotificationConfig.LengthLimitBoundary | src/config/notification.config.ts:70-71 | 200 characters pass and 201 fail, for the title and for the body |

## Left out

- Socket.IO fan-out is I/O and is not modelled. This covers `emitEverything`, every `io.to(...).emit`, `emitRoomUpdate` and the event registration. The model keeps the state changes around each emit; `EmitPlayers` and `ReturnDisplayHands` return the payload instead of sending it.
- Timers are time and concurrency, and are not modelled. This covers the `setTimeout` before a new hand and between streets, the room-monitoring `setInterval`, and the cron and scheduler services. `ClearGame` stops where the timer starts the next hand.
- `Math.random` becomes a choice of any value in its range, with no distribution. This applies to the shuffle's swap index and to the password characters.
- The post-flop decoding in `evaluateHandForString` works on floating-point digit groups and is not modelled. Its branches are unreachable anyway, because every hand value is `null`.
- `playerTurn` and `validOption` are not modelled. `callTurnOnNextPlayer` is an empty method, as in the source. `CalculateAndAwardPots` only completes the hand and clears the table, and moves no chips. The category helpers are modelled as the placeholders they are.
- `RoomController.createRoom` and the getters with no logic are not modelled.
- The database is not modelled. Rooms, tournaments and notifications are values, and the writes are the values returned. The notification service's database lookup is a boolean parameter.
- The controller's updates of user records are not modelled: `currentRoomId`, `roomState`, `otherRooms` and `tournamentState`. Neither are the lobby service's registration-status writes, or the database's member-count validator.
- The socket layer turns request fields into numbers with `Number()`; the model receives the numbers. `NaN` from a zero divisor in `emitPlayers` is modelled as no dealer position.
- String lengths are counted in characters, whereas JavaScript counts UTF-16 code units.
- PokerSocket.PokerRooms.JoinRoom: joins the last game with the requested name, as the source's search loop does. The registry's invariant covers the rosters only, not the decks.
- Players.Player.MinusFromStack: requires the amount to be at most the stack. The source does not check this; every caller passes such an amount.
- Deck.DeckOfCards.Deal: requires the cursor to be below 52. The source reads past the end of the array.
- PokerTable.PokerGame.NewHand: requires enough cards left for two per seat plus the flop. It states the seats and the dealer of the new hand, not the blinds it posts; those are stated by `PokerHand.RunHand`.
- PokerTable.PokerHand.RunHand: each seat's stack after the hand is not stated, only the pot and the blinds.
- PokerTable.PokerHand.DealRound: states that every seat with chips holds a hand, not which cards it holds. `PokerHand.DealCards` states the exact cards.
- PokerTable.PokerHand.AwardLastSeat: the pot is not emptied after the winner is paid, as in the source.
- PokerTable.PokerGame.PlayerJoin: requires that the seat is not already at the table.
- The notification service reads the clock several times per call. The model uses one instant `now` per call for the check, the record's `sendAt`, the mark and the cleanup.
- User and tournament ids in the notification service are natural numbers, and id 0 counts as an absent tournament, as JavaScript truthiness has it.
- RoomManagement.DistributeProperties: the capacity bound assumes distinct room ids, which the database guarantees as primary keys.
- A real hand ranking is not modelled, because the code has none: the rankers that the comments in src/game/handEvaluator.ts:18-55 describe all yield `null`.
- `Player.setName` (src/game/player.ts:105-107) is not modelled, and `name` is a constant field, because no source file calls `setName`.
