# Klondike solitaire engine (patience), modelled in Dafny

This project models the game core of "patience", a browser Klondike
solitaire. The model covers:

- the rule predicates: where a card may go on the tableau and on a
  foundation, whether any move is left, and whether the game is won;
- the pure move executor: drawing and recycling, the five single moves, and
  the automatic move onto the foundations;
- the helpers: rank values, colours, the Fisher–Yates shuffle, the M:SS
  clock text and the score;
- the deck component: building, reshuffling, dealing and drawing;
- the game component's session logic: dealing, drawing with the hard
  difficulty's redeal limit, clicks, drops, moves, undo and redo,
  auto-complete, the missed-move scan, and the win and loss checks.

A card is a suit, a rank (1..13) and a face-up flag. A pile is a sequence
whose top is its last element. The suit and rank of a card (its key) never
change. A multiset of keys says which cards a group of piles holds, and the
conservation properties are stated with it: every move keeps the cards, and
with the game component the board and every saved snapshot hold each of
the 52 cards exactly once.

Modules:

- `Cards`: cards, piles, keys, and the shared loop that pops cards face-up.
- `Helpers`: `helpers.js`.
- `Rules`: `rules.js`.
- `Actions`: `actions.js`.
- `Deck`: `Deck.jsx`, plus the deck construction and deal loops that the
  game component repeats.
- `History`: the undo timeline as a cursor over saved snapshots.
- `Board`: the board as a value, and the board transitions the game
  component's handlers apply.
- `GameBoard`: the component's state as the value `GameState`, each handler
  as a transition function with its lemmas, and the class `Game`, whose
  methods run the handlers step by step. Each method's new state is that
  function of the old one.

The component's state setters take effect only after a handler returns.
So a handler reads the state as it was when it started. The model follows
this. For example, `incrementMoves` and the missed-move scan it schedules
read the board from before the move. Snapshots are taken before every move.

## Model

| member | source | states |
|---|---|---|
| `Cards.PopFaceUp` | patience/src/logic/actions.js:19-30 | pops min(count, size) cards off the end, face-up, in pop order; the rest is the untouched prefix; the drawn cards and the rest hold the pile's cards |
| `Helpers.CardValue` | patience/src/utils/helpers.js:12-15 | the value is at most 13, and a non-zero value is the rank whose name was given |
| `Helpers.CardValueOfName` | patience/src/utils/helpers.js:12-15 | each of the thirteen rank names maps back to its rank |
| `Helpers.RankNameInjective` | patience/src/utils/helpers.js:12-15 | distinct ranks have distinct names, so the value map is injective on the names |
| `Helpers.ColorFacts` | patience/src/utils/helpers.js:18-25 | red exactly for hearts and diamonds; opposite colours is symmetric, false for one suit, and means one red and one black |
| `Helpers.ShuffleFromPermutes` | patience/src/utils/helpers.js:4-7 | the swap steps down from position i keep the length and the multiset of elements, whatever the picks |
| `Helpers.ShuffledPermutes` | patience/src/utils/helpers.js:2-9 | the shuffle under any valid picks is a permutation of its input |
| `Helpers.ShuffleArray` | patience/src/utils/helpers.js:2-9 | the loop over a fresh array yields the shuffle of the input under the picks, a permutation of it; the input value is untouched |
| `Helpers.DecimalRoundTrip` | patience/src/utils/helpers.js:31 | the decimal numeral of n reads back as n |
| `Helpers.FormatTimeShape` | patience/src/utils/helpers.js:28-32 | the text is the minutes, a colon, and the seconds as exactly two digits |
| `Helpers.FormatTimeRoundTrip` | patience/src/utils/helpers.js:28-32 | the M:SS text reads back as the number of seconds |
| `Helpers.ScoreInIntegers` | patience/src/utils/helpers.js:35-48 | a won score equals 500 - min(300, 2m) - min(200, ceil(t/5)), with no fractions |
| `Helpers.ScoreFacts` | patience/src/utils/helpers.js:35-48 | 0 when not won; always in [0, 500]; 500 at no moves and no time; non-increasing in moves and in time |
| `Rules.IndexOf` | patience/src/logic/rules.js:26-27 | the first position of the text, or -1 exactly when it is absent |
| `Rules.ValuesIndexOf` | patience/src/logic/rules.js:2 | a rank's name sits at position rank - 1 of VALUES, so the rules' index arithmetic is rank arithmetic |
| `Rules.TableauRule` | patience/src/logic/rules.js:5-31 | empty column: exactly Kings; missing or face-down target: nothing; otherwise opposite colours and one rank below, in both directions; never a King on a non-empty column, never one colour on itself |
| `Rules.BuiltLegallyIsRun` | patience/src/logic/rules.js:34-52 | a foundation grown only by accepted cards is exactly an A..n run of one suit; it holds at most 13 cards and at 13 ends in a King |
| `Rules.AcceptedKeepsBuilt` | patience/src/logic/rules.js:34-52 | placing an accepted card keeps a foundation legally built |
| `Rules.FitsColumnIsValidMove` | patience/src/logic/rules.js:73-85 | the scan's own column test is the drop rule on the column's top |
| `Rules.HasValidMoves` | patience/src/logic/rules.js:55-132 | true exactly when the stock is not empty, the waste top has a destination, or a face-up card of a column with a face-up top has one on a foundation or another column; always true with a stock |
| `Rules.GameWonMeaning` | patience/src/logic/rules.js:135-138 | won exactly when all four foundations hold 13 cards; legally built, each then ends in a King |
| `Actions.Recycled` | patience/src/logic/actions.js:11 | the waste reversed and turned face-down, card by card, with the same cards |
| `Actions.DrawnKeeps` | patience/src/logic/actions.js:4-31 | the draw keeps the cards of stock and waste together |
| `Actions.DrawFromStock` | patience/src/logic/actions.js:4-31 | both piles empty: unchanged; empty stock: the waste recycled and emptied; otherwise min(count, size) cards move face-up in pop order; cards kept |
| `Actions.RecycleTwice` | patience/src/logic/actions.js:11 | recycling twice gives back the waste, face-down |
| `Actions.ExposeTop` | patience/src/logic/actions.js:83-89 | only the top card changes, and it becomes face-up; the cards are kept |
| `Actions.MoveWasteToTableau` | patience/src/logic/actions.js:34-48 | a no-op on an empty waste, whatever the column index; otherwise exactly the waste top moves onto the column, with no rule checked; other columns unchanged; cards kept |
| `Actions.MoveWasteToFoundation` | patience/src/logic/actions.js:51-65 | a no-op on an empty waste, whatever the foundation index; otherwise exactly the waste top moves onto the foundation; other foundations unchanged; cards kept |
| `Actions.MoveTableauToFoundation` | patience/src/logic/actions.js:68-98 | a no-op unless the index is the column's top, whatever the foundation index; then that card moves and the new top is exposed; nothing else changes; cards kept |
| `Actions.MoveTableauToTableau` | patience/src/logic/actions.js:101-128 | a no-op for an out-of-range card index, whatever the target; otherwise the suffix moves in order onto the target and the prefix's top is exposed (including a move onto its own column); cards kept |
| `Actions.MoveFoundationToTableau` | patience/src/logic/actions.js:131-148 | a no-op on an empty foundation, whatever the column index; otherwise exactly its top moves onto the column; nothing else changes; cards kept |
| `Actions.FoundationRoundTrip` | patience/src/logic/actions.js:68-148 | a column top sent to a foundation and brought back restores both rows, when no card was turned over |
| `Actions.AutoFitsIsFoundationRule` | patience/src/logic/actions.js:168-171 | the inline test of the automatic move is the foundation rule |
| `Actions.FirstFitFrom` | patience/src/logic/actions.js:165-179 | the first foundation from k on that takes the card, or -1 exactly when none does |
| `Actions.FirstFittingFoundation` | patience/src/logic/actions.js:190-213 | the inner search with its break finds the first fitting foundation, or -1 exactly when no foundation fits |
| `Actions.ScanColumns` | patience/src/logic/actions.js:183-216 | when it moves, the column is the first whose face-up top fits (after a waste move, the first with a face-up top at all), the card goes onto the first foundation that takes it, and the column's new top is exposed; nothing changes otherwise; cards kept |
| `Actions.AutoMoveToFoundation` | patience/src/logic/actions.js:151-225 | terminates with no foundation move left; keeps every card; moved exactly when the foundations grew; unchanged when nothing moved; keeps legal foundations legal |
| `Actions.AutoMoveTwice` | patience/src/logic/actions.js:151-225 | run again on its own result it moves nothing and returns the same piles |
| `Deck.StandardDeck` | patience/src/components/Deck.jsx:11-25 | 52 face-down cards, suit by suit, A to K |
| `Deck.StandardDeckIsComplete` | patience/src/components/Deck.jsx:11-25 | every (suit, rank) pair is in the deck, at its computed position |
| `Deck.StandardDeckIsDistinct` | patience/src/components/Deck.jsx:11-25 | no two positions hold the same card, and their ids differ |
| `Deck.CardIdInjective` | patience/src/components/Deck.jsx:19 | two ids `suit-value` are equal exactly when suit and rank are |
| `Deck.BuildDeck` | patience/src/components/Deck.jsx:15-25 | the nested construction loops build the standard deck |
| `Deck.PermutationKeys` | patience/src/components/Deck.jsx:28 | a permuted deck holds the same cards |
| `Deck.TriClosedForm` | patience/src/components/Deck.jsx:49-50 | the cards dealt before column i number i(i+1)/2 |
| `Deck.DealtColumn` | patience/src/components/Deck.jsx:49-54 | column i has i + 1 cards; its j-th is the (i(i+1)/2 + j)-th card popped off the end, only the last face-up |
| `Deck.DealColumn` | patience/src/components/Deck.jsx:50-53 | the inner loop pops i + 1 cards in order, only the last face-up; the rest is the prefix; cards kept |
| `Deck.Deal` | patience/src/components/Deck.jsx:44-63 | seven columns as DealtColumn gives them; the first size - 28 cards remain in order; no card is lost |
| `Deck.Empties` | patience/src/components/Deck.jsx:46 | n empty columns holding no card |
| `Deck.DeckComponent.constructor` | patience/src/components/Deck.jsx:10-33 | the deck is the standard deck shuffled under the picks, with the same cards |
| `Deck.DeckComponent.ReshuffleDeck` | patience/src/components/Deck.jsx:36-41 | the result and the new deck are a permutation of the current cards, every one face-down |
| `Deck.DeckComponent.DealTableau` | patience/src/components/Deck.jsx:44-63 | the columns of the deal; the deck and the returned remainder are the first size - 28 cards; no card is lost |
| `Deck.DeckComponent.DrawCards` | patience/src/components/Deck.jsx:66-83 | empty deck: nothing drawn and an empty remainder; otherwise min(count, size) cards in pop order, face-up, and the deck becomes the untouched prefix; no card is lost |
| `History.Start` | patience/src/components/GameBoard.jsx:213-214 | the fresh timeline is the deal alone, with neither undo nor redo available |
| `History.Commit` | patience/src/components/GameBoard.jsx:135-145 | entries up to the index are kept, the snapshot becomes the tip, the index is on it, and redo is unavailable |
| `History.CommitFacts` | patience/src/components/GameBoard.jsx:135-145 | after a save, nothing can be redone, the length is index + 2, earlier entries are kept, and one undo brings the index back |
| `History.Undo` | patience/src/components/GameBoard.jsx:576-590 | the index steps back one, or stays at the first entry; the entries are unchanged |
| `History.Redo` | patience/src/components/GameBoard.jsx:593-607 | the index steps forward one, or stays at the tip; the entries are unchanged |
| `History.UndoRedoInverse` | patience/src/components/GameBoard.jsx:576-607 | a redo takes back an undo, and an undo a redo |
| `History.UndoNIndex` | patience/src/components/GameBoard.jsx:576-590 | n undos step the index back by n, stopping at 0 |
| `History.RedoNIndex` | patience/src/components/GameBoard.jsx:593-607 | n redos step the index forward by n, stopping at the tip |
| `History.UndoAll` | patience/src/components/GameBoard.jsx:576-590 | undoing as many times as the index reaches the first entry, the deal |
| `History.RedoAll` | patience/src/components/GameBoard.jsx:593-607 | from the deal, redoing once per later entry reaches the tip, the state before the latest move |
| `History.UndoSkipsAMove` | patience/src/components/GameBoard.jsx:578 | as written, an undo right after two moves restores the deal, not the state before the second move |
| `History.UndoLatest` | patience/src/components/GameBoard.jsx:576-590 | the intended undo restores the entry at the index and steps back |
| `History.UndoLatestUndoesTheMove` | patience/src/components/GameBoard.jsx:576-590 | right after a save, the intended undo restores exactly the saved state and puts the index back |
| `Board.DrawLayout` | patience/src/components/GameBoard.jsx:261-288 | the stock and waste are those of the draw; the rest of the board is untouched; every card is kept |
| `Board.Flip` | patience/src/components/GameBoard.jsx:313-315 | the clicked card is turned face-up where it lies; every other card and pile is unchanged; cards kept |
| `Board.FlipIdempotent` | patience/src/components/GameBoard.jsx:301-317 | turning a card over twice is turning it over once |
| `Board.FoundationMoveAsWritten` | patience/src/components/GameBoard.jsx:408-449 | the card goes onto the foundation; a column is cut back to the cards below it (new top exposed); a waste source loses its top; any other source loses nothing |
| `Board.AsWrittenDropsCovering` | patience/src/components/GameBoard.jsx:430 | as written, every card covering the moved card leaves the board; a covered card's move loses cards |
| `Board.AsWrittenDuplicates` | patience/src/components/GameBoard.jsx:428-441 | as written, a card moved from a foundation or the stock is not removed, so the board gains a copy |
| `Board.AsWrittenOnTops` | patience/src/components/GameBoard.jsx:428-441 | from the waste top or a column's top, the written move is the corrected one and keeps every card |
| `Board.FoundationMoveCorrected` | patience/src/components/GameBoard.jsx:408-449 | the intended move keeps every card; when it changes the board, it adds the card to the foundation; a covered card moves nothing |
| `Board.TableauMove` | patience/src/components/GameBoard.jsx:470-497 | the carried cards (a column suffix, or one waste or foundation top) go onto the target and leave their source: a column is cut to the cards below with its new top exposed, the waste or the foundation loses its top; every other pile is unchanged (a move onto its own column puts the suffix back on the exposed remainder); cards kept |
| `Board.MissedFoundationMove` | patience/src/components/GameBoard.jsx:508-545 | true exactly when the waste top or some face-up column top fits a foundation |
| `Board.FoundationCountIsCards` | patience/src/components/GameBoard.jsx:711 | the summed foundation lengths are the number of foundation cards |
| `Board.WastePass` | patience/src/components/GameBoard.jsx:645-656 | when it moves, the waste loses its top and exactly the first foundation that takes that card gains it; unchanged, and the top fits nowhere, when it does not move; cards kept |
| `Board.ScanTops` | patience/src/components/GameBoard.jsx:658-674 | when it moves, the column is the first whose top fits (after a waste move, the first non-empty one), its top goes onto the first foundation that takes it, with no face check and no flip; nothing changes otherwise; cards kept |
| `Board.AutoComplete` | patience/src/components/GameBoard.jsx:637-675 | terminates with no top fitting; keeps every card; piles only shrink and foundations only grow; moves made equals cards moved; legal foundations stay legal |
| `GameBoard.DrawCount` | patience/src/components/Settings.jsx:21-25 | one card per draw at easy, three at medium and hard |
| `GameBoard.StartHolds` | patience/src/components/GameBoard.jsx:203-214 | a deal holding the deck, saved as the only snapshot, holds every card once everywhere |
| `GameBoard.Saved` | patience/src/components/GameBoard.jsx:135-145 | the new tip is the snapshot and the index is on it; earlier entries are kept; nothing else changes; the invariant is kept |
| `GameBoard.MissedChecked` | patience/src/components/GameBoard.jsx:508-546 | the missed-move count grows by one exactly when the waste top or a face-up column top fits a foundation; nothing else changes |
| `GameBoard.Counted` | patience/src/components/GameBoard.jsx:549-562 | one more move; one more after the stock emptied when it has; the missed-move scan of the pre-move board; nothing else changes |
| `GameBoard.Begun` | patience/src/components/GameBoard.jsx:272-289 | the board is untouched; the pre-move snapshot is the new tip; earlier entries are kept |
| `GameBoard.BegunKeepsCards` | patience/src/components/GameBoard.jsx:135-145 | saving a whole board keeps every snapshot whole |
| `GameBoard.Drawn` | patience/src/components/GameBoard.jsx:231-290 | the draw keeps the state invariant; see DrawnSteps and DrawnChanges for what it does |
| `GameBoard.DrawnSteps` | patience/src/components/GameBoard.jsx:231-290 | an accepted draw is: save, count, then piles, redeal count and stock-empty mark from the draw of the old piles |
| `GameBoard.DrawnChanges` | patience/src/components/GameBoard.jsx:231-290 | the state changes exactly when the draw is not refused (empty piles, or the hard limit); then one move, the draw's piles, and the old state as the new tip |
| `GameBoard.DrawnKeepsCards` | patience/src/components/GameBoard.jsx:231-290 | a draw keeps every card of the deck once, on the board and in every snapshot |
| `GameBoard.HardRedealBound` | patience/src/components/GameBoard.jsx:237-256 | at hard the waste is recycled at most three times; a redeal happens only from an empty stock and empties the waste |
| `GameBoard.StockEmptyCounting` | patience/src/components/GameBoard.jsx:282-289 | the stock-empty mark stays set; only a draw that empties the stock sets it; moves after it are counted, but not the draw that sets it |
| `GameBoard.Flipped` | patience/src/components/GameBoard.jsx:301-317 | saved and counted; the board is the flip of the clicked card, which is now face-up with the same suit and rank |
| `GameBoard.FlippedKeepsCards` | patience/src/components/GameBoard.jsx:301-317 | turning a card over keeps every card |
| `GameBoard.ToFoundation` | patience/src/components/GameBoard.jsx:408-449 | saved and counted; the foundation gains the card; the board is the written move |
| `GameBoard.ToFoundationFromTops` | patience/src/components/GameBoard.jsx:428-441 | sent from the waste top or a column's top, a card reaches the foundation with no card lost or copied |
| `GameBoard.ToTableau` | patience/src/components/GameBoard.jsx:452-505 | rejected by the rule: nothing changes and nothing is saved; otherwise saved, counted, and the piles are exactly those of `TableauMove`: the carried cards on the target, gone from their source, the exposed top turned over, the other piles unchanged |
| `GameBoard.ToTableauKeepsCards` | patience/src/components/GameBoard.jsx:452-505 | a move onto a column keeps all 52 cards |
| `GameBoard.Clicked` | patience/src/components/GameBoard.jsx:293-337 | the click keeps the state invariant; see ClickedCases for its branches |
| `GameBoard.ClickedCases` | patience/src/components/GameBoard.jsx:320-337 | a face-up card that fits goes to the first fitting foundation; a click that neither draws, flips nor moves leaves the state unchanged |
| `GameBoard.ClickedOnTopsKeeps` | patience/src/components/GameBoard.jsx:293-329 | a click on the stock, the waste top or a column's top keeps every card |
| `GameBoard.Dropped` | patience/src/components/GameBoard.jsx:388-405 | a drop onto a foundation that does not take the card changes nothing; otherwise the move onto the foundation or the column; the dragged card is never the stock's |
| `GameBoard.DroppedKeepsCards` | patience/src/components/GameBoard.jsx:394-402 | a drop onto a column, or of a top card onto a foundation, keeps every card |
| `GameBoard.Restored` | patience/src/components/GameBoard.jsx:580-586 | the seven snapshot fields are the snapshot's; the timeline, redeal count, win and loss flags and the rest are unchanged |
| `GameBoard.Undone` | patience/src/components/GameBoard.jsx:576-590 | the index steps back and the entry before the old index is shown; a no-op at the first entry |
| `GameBoard.Redone` | patience/src/components/GameBoard.jsx:593-607 | the index steps forward and the entry after it is shown; a no-op at the tip |
| `GameBoard.TimelineKeepsCards` | patience/src/components/GameBoard.jsx:576-607 | what undo and redo restore holds every card |
| `GameBoard.UndoRedoRoundTrip` | patience/src/components/GameBoard.jsx:576-607 | redo after undo, or undo after redo, puts the index back and shows the entry at it |
| `GameBoard.UndoneLatest` | patience/src/components/GameBoard.jsx:576-590 | the intended undo shows the entry at the index and steps back; a no-op at the first entry |
| `GameBoard.UndoneLatestKeepsCards` | patience/src/components/GameBoard.jsx:576-590 | the intended undo keeps every card |
| `GameBoard.UndoAfterMove` | patience/src/components/GameBoard.jsx:576-590 | right after any move, the written undo shows the snapshot from before the previous move, and the intended one shows the state the move started from |
| `GameBoard.UndoAfterDraw` | patience/src/components/GameBoard.jsx:578 | the same for a draw |
| `GameBoard.LossReason` | patience/src/components/GameBoard.jsx:697-718 | lost exactly when no move is left; the reason is the stock-empty text exactly when the stock emptied, two moves followed and the foundations are not full |
| `GameBoard.Game.constructor` | patience/src/components/GameBoard.jsx:79-88 | the first render deals a game at easy, as `FreshDeal` states it (every counter and flag reset, the shuffled deck, the columns dealt from its end, 24 cards of stock, empty waste and foundations, the deal the only snapshot), with all 52 cards and the clock running |
| `GameBoard.Game.InitializeGame` | patience/src/components/GameBoard.jsx:148-218 | the deal `FreshDeal` states (every counter and flag reset; the deck shuffled; columns dealt from its end; 24 cards of stock; empty waste and foundations; the deal the only snapshot); all 52 cards; the difficulty kept; the clock restarts only when the old game was not started, was won or was paused, and otherwise stays as it was |
| `GameBoard.Game.RestartGame` | patience/src/components/GameBoard.jsx:685-687 | the same as initializeGame: the deal `FreshDeal` states, all 52 cards, the difficulty kept, and the clock restarted only when the old game was not started, was won or was paused |
| `GameBoard.Game.RestartAfterLoss` | patience/src/components/GameBoard.jsx:685-687 | a game with no move left, checked and then restarted: a fresh deal whose clock is stopped against the intended rule, so a second counts nothing |
| `GameBoard.Game.SaveToHistory` | patience/src/components/GameBoard.jsx:135-145 | the new state is Saved of the old |
| `GameBoard.Game.CheckMissedMoves` | patience/src/components/GameBoard.jsx:508-546 | the new state is MissedChecked of the old |
| `GameBoard.Game.IncrementMoves` | patience/src/components/GameBoard.jsx:549-562 | the new state is Counted of the old |
| `GameBoard.Game.BeginMove` | patience/src/components/GameBoard.jsx:272-289 | the new state is Begun of the old: saved, then counted |
| `GameBoard.Game.DrawFromStock` | patience/src/components/GameBoard.jsx:231-290 | the new state is Drawn of the old; the invariant is kept |
| `GameBoard.Game.HandleCardClick` | patience/src/components/GameBoard.jsx:293-337 | the new state is Clicked of the old; the invariant is kept |
| `GameBoard.Game.MoveCardToFoundation` | patience/src/components/GameBoard.jsx:408-449 | the new state is ToFoundation of the old; the invariant is kept |
| `GameBoard.Game.MoveCardToTableau` | patience/src/components/GameBoard.jsx:452-505 | the new state is ToTableau of the old; the invariant is kept |
| `GameBoard.Game.HandleDrop` | patience/src/components/GameBoard.jsx:388-405 | the new state is Dropped of the old; the invariant is kept |
| `GameBoard.Game.Restore` | patience/src/components/GameBoard.jsx:580-586 | the new state is Restored of the old |
| `GameBoard.Game.HandleUndo` | patience/src/components/GameBoard.jsx:576-590 | the new state is Undone of the old; the invariant is kept |
| `GameBoard.Game.HandleRedo` | patience/src/components/GameBoard.jsx:593-607 | the new state is Redone of the old; the invariant is kept |
| `GameBoard.Game.HandleAutoComplete` | patience/src/components/GameBoard.jsx:618-682 | unchanged unless auto-complete is possible; otherwise saved, every card kept, no top left fitting, piles only shrink and foundations only grow, moves grow by the cards moved |
| `GameBoard.Game.CheckWinCondition` | patience/src/components/GameBoard.jsx:565-573 | won is set exactly when all foundations are full, and the final score only when it was not set before, which also stops the clock; nothing else changes; a clock running as intended stays so |
| `GameBoard.Game.CheckGameOver` | patience/src/components/GameBoard.jsx:690-730 | nothing once won or lost; otherwise lost, with LossReason's text, exactly when no move is left, and then the clock stops; a clock running as intended stays so |
| `GameBoard.Game.RefreshScore` | patience/src/components/GameBoard.jsx:115-119 | while a game runs, the score is calculateScore of moves, time and won |
| `GameBoard.Game.Tick` | patience/src/components/GameBoard.jsx:91-105 | the time grows by one while the interval is live, and nothing else changes |
| `GameBoard.Ticked` | patience/src/components/GameBoard.jsx:91-98 | one second adds one to the time exactly when the interval is live; nothing else changes |
| `GameBoard.RestartAfterLossClockStopped` | patience/src/components/GameBoard.jsx:150-217 | as written, a game lost while unpaused restarts with its clock stopped: a second adds nothing, and a win scores with no time penalty |
| `GameBoard.RestartCorrectedClockRuns` | patience/src/components/GameBoard.jsx:150-217 | after the intended restart the clock runs exactly while the game is started and neither won, lost nor paused, and each second is counted |
| `GameBoard.Game.TogglePause` | patience/src/components/GameBoard.jsx:733-735 | the pause flag flips and the clock runs exactly when the game is started, not won and not paused, even after a loss; nothing else changes |
| `GameBoard.Game.SetDifficulty` | patience/src/components/GameBoard.jsx:44-49 | only the difficulty changes |

## Left out

- Rendering, the Card, GameControls, GameStats and App components, and the
  suit symbols and CSS are left out. They only present the state and pass
  clicks and drags on. One thing the render does to the state is not
  modelled: a click on the stock card reaches both the card's handler and
  the stock pile's, so one click runs the draw twice from the same state.
  The board ends as after one draw, but the counters that add to their
  previous value (the moves after the stock emptied, the missed moves) are
  counted twice. This is read from the source and not executed.
- Settings.jsx: only its difficulty table is used, as `DrawCount` and
  `RedealLimit`. The themes, the modal and `toggleSettings` are left out,
  because they are presentation or a timer gate.
- Wall-clock time is left out. The one-second `setInterval` becomes the
  method `Tick`, and whether the interval is live becomes the field
  `timerRunning`. The effect that starts and stops the interval runs only
  when `gameStarted`, `gameWon` or `gamePaused` changes, and the loss
  check clears the interval itself; the methods follow those rules. `Date.now` and `lastMoveTime` only throttle the loss check,
  and the loss check becomes the method `CheckGameOver`, called directly.
  The 300 ms `setTimeout` before `checkMissedMoves` is left out too: the
  scan runs inside `IncrementMoves` on the state the move started from,
  which is the state the stale callback sees.
- `stockEmptyTime` is kept only as the flag `stockEmptied`, because only
  whether it is set is ever read.
- `Math.random` in the shuffle is replaced by the swap indices, which are a
  parameter (`picks`).
- React machinery is left out: effects, `useCallback`, the `gameStateRef`
  mirror and batched updates. Each handler is one method. The component's
  state hooks are the fields of one `GameState` value held in the class's
  single field `state`, which each handler replaces.
- GameBoard.Game handlers (DrawFromStock, HandleCardClick,
  MoveCardToFoundation, MoveCardToTableau, HandleDrop, HandleUndo,
  HandleRedo, HandleAutoComplete): their contracts promise the shape
  invariant and the transition function, not the card conservation.
  Conservation is proved about the transition functions in the lemmas
  named `...KeepsCards`, `ToFoundationFromTops` and `ClickedOnTopsKeeps`.
- Selection (`selectedCard`, the select and deselect branch of
  `handleCardClick`) and `draggedCards` are left out, because they feed
  only highlighting and drag hints.
- Drag-and-drop plumbing is left out: the `dataTransfer` JSON,
  `handleDragStart` and `handleDragOver`. When `handleDragOver` leaves
  `dropEffect` at 'none', the browser cancels the drop; for example, a
  stack of several cards is never dropped on a foundation
  (GameBoard.jsx:370-375). A drop is modelled by its dispatch (`Dropped`),
  given the dragged card's position. `Dropped` also admits drops that
  the browser would cancel, so it over-approximates the reachable drops,
  and every property proved of it still holds. The covering-card loss in
  the second Findings row does not depend on this: a click reaches it too
  (GameBoard.jsx:321-327).
- Click-flip aliasing: `handleCardClick` copies only the outer tableau
  array (GameBoard.jsx:313), then writes into the column that the snapshot
  just saved shares. The flip therefore shows up in every saved snapshot
  that still holds that column array, not only the latest one. For
  example: deal, draw, click a buried face-down card, then undo twice; the
  deal comes back with that card face-up. The model has value semantics,
  so every saved snapshot keeps the face-down card.
- The flip turns over any face-down column card, not only the top one,
  exactly as the source does; no rule is added.
- GameBoard.Game.HandleAutoComplete: like the source, it does not call
  `incrementMoves`. Its contract says the moves grow by the cards moved,
  but it does not pin the tableau to a single function of the old state.
- Deck.DeckComponent.DealTableau requires at least 28 cards. With fewer,
  the source pops `undefined` and deals card-less objects, which the model
  has no value for.
- Rules.HasValidMoves and the other scans require four foundations and
  seven columns, the component's fixed shape.
- Actions.MoveWasteToTableau, Actions.MoveWasteToFoundation,
  Actions.MoveTableauToFoundation, Actions.MoveTableauToTableau and
  Actions.MoveFoundationToTableau: where the source returns its input
  early, any index is accepted and the piles come back unchanged. An index
  is required to be in range only on the path where the source would throw
  a TypeError (spreading or measuring `undefined`). The thrown error is not
  modelled.
- Helpers.CardValue: the source looks the name up in an object literal,
  so a property name every object inherits (such as `toString`) would give
  a non-number. No caller passes one; the model maps every non-rank string
  to 0.
- The `onDeckReady` callback of the deck component is left out. It only
  hands the shuffled deck to a parent, and nothing in the game uses it.
- Pause and settings toggles: only `TogglePause` is kept, because the
  toggles merely gate the timer.

## Findings

| source | as written | input that shows it | evidently intended | confidence | as-written member | corrected member |
|---|---|---|---|---|---|---|
| patience/src/components/GameBoard.jsx:578 | undo restores `history[historyIndex - 1]`, but the entry at the index is already the state the latest move started from | two moves from a fresh deal, then undo: the deal is shown and both moves are gone | restore `history[historyIndex]`, the state before the latest move | high, not executed | `GameBoard.UndoAfterMove` | `GameBoard.UndoneLatest` |
| patience/src/components/GameBoard.jsx:430 | a column source is cut to `slice(0, index)` with no check that the card is the top, so every card covering it leaves the board | column [.., 2♥ up, A♠ up], foundation [A♥]: clicking 2♥ moves it and A♠ disappears | only a column's top card moves, as in actions.js:75 | high, not executed | `Board.AsWrittenDropsCovering` | `Board.FoundationMoveCorrected` |
| patience/src/components/GameBoard.jsx:150-217 | the restart resets `gameStarted`, `gameWon` and `gamePaused` to the values they already have after a loss, so the timer effect does not run again and the interval the loss check cleared stays cleared | lose a game while unpaused, then press New Game: the clock stays at 0:00 until pause is toggled, and a win then scores with no time penalty | a new game starts its clock | medium, not executed | `GameBoard.RestartAfterLossClockStopped` | `GameBoard.RestartCorrectedClockRuns` |
| patience/src/components/GameBoard.jsx:428-441 | no removal branch for a foundation source, so the card is added to the target and stays on its source | foundations [A♥], [], [], []: clicking A♥ on the first puts a second A♥ on the second | a foundation source gives up its top (or no move is offered) | high, not executed | `Board.AsWrittenDuplicates` | `Board.FoundationMoveCorrected` |

The class `Game` runs the handlers as the component writes them. The
corrected definitions stand beside them with their properties proved:
`UndoneLatest` for the undo, `FoundationMoveCorrected` for the move
onto a foundation, and `TimerAfterRestartCorrected` for the clock at a
restart.
