# FreeCell solver core in Dafny

This project models the core of a FreeCell solitaire program with a search bot. The core has four parts:

- **Constants** (`constants.dfy`, module `Constants`). The four suits, the thirteen ranks and their values, and the board sizes. Also the victory score and the weight profiles for the early, mid and late game.
- **Cards and placement rules** (`cards.dfy`, `rules.dfy`).
  - A card is a rank and a suit. Its value comes from the rank table, and Hearts and Diamonds are red.
  - A card may go on an empty tableau pile, or onto a card one higher of the other colour.
  - A foundation takes the Ace of its suit, then each next card of that suit.
- **The board and its evaluator** (`board.dfy`, class `Board.BoardState`). A board holds the tableau, the free cells, the foundations and a move counter. The solver scores a board by:
  - the number of foundation cards times a multiplier;
  - plus the number of empty tableau piles;
  - plus the lengths of the tableau piles that are ordered all the way down.

  A won board, with every foundation at 13 cards, scores the victory score instead. The two scoring loops are imperative methods, proved against recursive specification functions.
- **The bot's max-priority queue** (`queue.dfy`, class `PriorityQueue.MaxPriorityQueue`). It stores negated items in a binary min-heap. `HeapPush` and `HeapPop` are verified here, together with the heap invariant they keep.
- **The game wrapper** (`game.dfy`, class `Game.FreeCell`).
  - It owns the live board. Each move is tried on a fresh copy; the copy is returned on success and `null` on refusal, and the live board is never changed.
  - It keeps a stack of zone snapshots for save and undo.

`wrappers.dfy` holds the `Option` datatype.

The board's own move operations are not defined by `BoardState` in `freecell_bot.py`. They are a parameter of type `Board.BoardMoves`: a function from a position and a move to the new position, or `None` when the move is refused. The foundation and free-cell multipliers are names the bot's file uses but never defines. They are parameters of the scoring methods.

Three details of the code shape the model:
- The evaluator in the code sums only three scores. The free-cell score is computed by its own function, but its call is commented out.
- The empty-tableau score in the code is a plain count, with no weight.
- The foundation check in the code compares the rank name with `"A"` for an empty foundation. The model proves this is the same as value 1.

## Model

| member | source | states |
|---|---|---|
| Constants.RankValues | constants.py:3-4 | There are 13 ranks. `RANKS[i]` has value `i + 1` in `CARD_VALUES`. The ranks are exactly the keys of `CARD_VALUES`. |
| Constants.CardValuesInjective | constants.py:4 | Every card value is in 1..13, and no two rank names share a value. |
| Constants.SuitsAndRanksDistinct | constants.py:2-3 | `TYPES` lists each of the four suits exactly once, and `RANKS` has no repeats. |
| Constants.ProfilesWellFormed | constants.py:13-48 | The profiles are keyed by exactly early, mid and late. Each profile and the default table define the same six weights, and every weight is non-negative. |
| Constants.PhaseWeightTrends | constants.py:13-38 | The foundation multiplier rises strictly from early to mid to late and is at most 15000. The excavation multiplier falls strictly. |
| Constants.VictoryScoreDominates | constants.py:10-48 | For every profile and for the default table, 52 foundation cards times the foundation multiplier stay below `VICTORY_SCORE`. |
| Cards.StackedCardsAlternateSuits | freecell_gui.py:69 | With `ColorOf` (Hearts and Diamonds red, the others black) deciding colour, a card that may lie on another is never of the same suit. It is of a red suit exactly when the card beneath is of a black one. |
| Cards.Card.Value | constants.py:4 | A card's value is its rank's `CARD_VALUES` entry, which lies in 1..13. |
| Cards.Deck | constants.py:2-3 | The deck of every rank of every suit has 52 cards. |
| Cards.DeckIsComplete | constants.py:2-3 | The 52 deck cards are pairwise distinct, and every possible card is among them. |
| Cards.OrderedRunValues | freecell_bot.py:52-57 | In an ordered run, the card at depth `i` has value `i` less than the bottom card. |
| Cards.OrderedRunAtMost13 | freecell_bot.py:52-57 | A pile that passes the order check has at most 13 cards. |
| Cards.FoundationPileAtMost13 | freecell_gui.py:308-315 | A foundation built Ace upward in one suit has at most 13 cards. |
| Rules.EmptyPileAcceptsAnyCard | freecell_gui.py:301-302 | `IsValidTableauMove`: an empty tableau pile accepts every card. |
| Rules.NonEmptyPileRule | freecell_gui.py:304-306 | `IsValidTableauMove`: on a non-empty pile, a drop is valid exactly when the card is one lower than the top card and of the other colour. |
| Rules.KingNeverOnNonEmptyPile | freecell_gui.py:299-306 | A King is never valid on a non-empty pile. |
| Rules.TableauMoveKeepsOrder | freecell_gui.py:299-306 | On an ordered pile, a drop is valid exactly when the pile with the card on top is still ordered. |
| Rules.WrongSuitRejected | freecell_gui.py:310-311 | `IsValidFoundationMove`: a card of another suit is refused, whatever the foundations hold. |
| Rules.EmptyFoundationTakesOnlyAce | freecell_gui.py:312-313 | `IsValidFoundationMove`: an empty foundation accepts a card exactly when it is of the foundation's suit and has value 1. |
| Rules.NonEmptyFoundationRule | freecell_gui.py:314-315 | `IsValidFoundationMove`: a non-empty foundation accepts a card exactly when it is of the right suit and one higher than the top card. |
| Rules.FoundationMoveKeepsOrder | freecell_gui.py:308-315 | On a well-built foundation, a drop is valid exactly when the foundation stays well built. |
| Board.CountWhereIsIndexCount | freecell_bot.py:39-45 | The counter used for empty cells and piles equals the number of matching positions, so it is at most the length. |
| Board.FoundationTotalBySuit | freecell_bot.py:32-37 | The foundation total is the sum of the four suits' pile sizes. |
| Board.BoardState.constructor | freecell_bot.py:26-30 | The new board holds the given three zones, and its move counter is 0. |
| Board.BoardState.Clone | freecell_game.py:110-111 | The copy is a fresh board with the same zones and move counter. The original board is unchanged. |
| Board.BoardState.ApplyMove | freecell_game.py:29 | An accepted move replaces the board's contents with the new position and reports success. A refused move leaves the board unchanged. |
| Board.BoardState.GetFoundationScore | freecell_bot.py:32-37 | The score is the number of foundation cards times the multiplier. It is non-negative when the multiplier is. |
| Board.FreeCellScoreCountsEmptyCells | freecell_bot.py:39-41 | With four cells, the free-cell score `BoardState.GetFreeCellScore` is the number of empty cells times the multiplier, and that number lies in 0..4. |
| Board.EmptyTableauScoreCountsEmptyPiles | freecell_bot.py:43-45 | The empty-tableau score `BoardState.GetEmptyTableauScore` counts the empty piles. On an eight-pile tableau it lies in 0..8. |
| Board.BoardState.GetTableauOrderScore | freecell_bot.py:47-62 | The score is the sum of the lengths of the non-empty piles in which each card is one lower than the card below it and of the other colour. |
| Board.OrderScoreBounds | freecell_bot.py:47-62 | The order score is at most the number of tableau cards and at most 13 per pile. |
| Board.BoardState.CalculateHeuristic | freecell_bot.py:64-82 | A won board scores `VICTORY_SCORE`. Otherwise the score is the foundation score plus the empty-pile count plus the order score, with no free-cell term. |
| Board.FoundationTotalAtMost52 | freecell_bot.py:32-37 | On well-built foundations, the foundation total is at most 52. |
| Board.WinnerIffAllCardsHome | freecell_bot.py:84-86 | Take well-built foundations for all four suits. The board is won (`Won`, which `BoardState.IsWinner` applies to its foundations) exactly when all 52 cards are on the foundations. |
| Board.HeuristicVictoryIffWon | freecell_bot.py:79-82 | Take an eight-pile tableau, well-built foundations and a multiplier in 0..15000, the largest profile value. The heuristic reaches `VICTORY_SCORE` exactly when the board is won, and it is never negative. |
| PriorityQueue.RootAtMost | freecell_bot.py:18-20 | In a min-heap, the root is at most every element. |
| PriorityQueue.RootIsMinimum | freecell_bot.py:18-20 | The root of a non-empty min-heap is its smallest element. |
| PriorityQueue.HeapPush | freecell_bot.py:10-12 | Pushing keeps the heap invariant and adds exactly one occurrence of the item. |
| PriorityQueue.SiftDown | freecell_bot.py:14-16 | Sinking the root restores the heap invariant without changing the elements. |
| PriorityQueue.HeapPop | freecell_bot.py:14-16 | Popping returns the smallest element and removes exactly one occurrence of it. The rest stays a heap. |
| PriorityQueue.NegatedRemove | freecell_bot.py:12-16 | Removing the smallest negated value removes the largest item, and the two collections still correspond. |
| PriorityQueue.MaxPriorityQueue.constructor | freecell_bot.py:7-8 | A new queue is empty. |
| PriorityQueue.MaxPriorityQueue.Push | freecell_bot.py:10-12 | The queue afterwards holds its old items plus one more `item`. |
| PriorityQueue.MaxPriorityQueue.Pop | freecell_bot.py:14-16 | The result is an item of the queue that no other item exceeds. Exactly one occurrence of it is removed. |
| PriorityQueue.MaxPriorityQueue.Peek | freecell_bot.py:18-20 | The result is `None` exactly when the queue is empty. Otherwise it is the largest item, and the queue is unchanged. |
| PriorityQueue.MaxPriorityQueue.IsEmpty | freecell_bot.py:22-23 | The result is true exactly when the queue holds no items. |
| Game.FreeCell.constructor | freecell_game.py:11-19 | The new game has eight empty piles, four empty cells, an empty foundation for each suit and no history. A fresh board with a move counter of 0 holds the same zones. This is the live board that `GetBoard` returns, not a copy. |
| Game.FreeCell.CloneBoardState | freecell_game.py:110-111 | The result is a fresh board with the live board's contents. |
| Game.FreeCell.TryOnClone | freecell_game.py:25-32 | A board comes back exactly when the move is accepted from the live position, and it holds the new position. The game and its live board are unchanged. |
| Game.FreeCell.MoveToFreecell | freecell_game.py:25-32 | Moving a pile's top card to a free cell is tried on a copy, as in `TryOnClone`. |
| Game.FreeCell.MoveToTableau | freecell_game.py:34-41 | Moving a free-cell card to a pile is tried on a copy, as in `TryOnClone`. |
| Game.FreeCell.MoveTableauToTableau | freecell_game.py:43-50 | Moving from one pile to another is tried on a copy, as in `TryOnClone`. |
| Game.FreeCell.MoveToFoundation | freecell_game.py:56-63 | Moving a pile's top card to its foundation is tried on a copy, as in `TryOnClone`. |
| Game.FreeCell.MoveFreecellToFoundation | freecell_game.py:65-73 | Moving a free-cell card to its foundation is tried on a copy, as in `TryOnClone`. |
| Game.FreeCell.MoveSupermove | freecell_game.py:101-108 | A multi-card move is tried on a copy, as in `TryOnClone`. |
| Game.GameWonIffAllCardsHome | freecell_game.py:84-85 | `FreeCell.IsWinner` asks the live board. When that board has a well-built foundation for every suit, the game is won exactly when all 52 cards are home. |
| Game.FreeCell.SaveState | freecell_game.py:87-88 | A snapshot of the wrapper's three zones is appended to the history, and nothing else changes. Whether the game is won (`IsWinner`) is unchanged. |
| Game.FreeCell.Undo | freecell_game.py:90-95 | With history, the last snapshot is popped back into the three zones. With none, nothing changes. The live board is never reassigned, so whether the game is won (`IsWinner`) is unchanged. |
| Game.UndoRestoresSavedZones | freecell_game.py:87-92 | Save, then replace all three zones, then undo: the tableau, the free cells, the foundations and the history are back to their values before the save. |

## Left out

- Rendering, input handling and drag-and-drop in `freecell_gui.py`: only the two placement checks and the red-suit rule are modelled. The interface's rules read the live board's zones, which the model passes in as the `tableau` and `foundations` arguments.
- `main.py` and `test_freecell.py` are not part of this model.
- `FreecellBot`: the search loop is not modelled. It pushes `BoardState` objects into a queue that negates its items, which the board type does not support.
- `FreeCell.is_valid_tableau_move` and `FreeCell.get_empty_cells_and_cascades`: they delegate to board methods that `BoardState` in `freecell_bot.py` does not define.
- `FreeCell.is_valid_foundation_move`: it passes a card where a free-cell index is expected, and it returns a board rather than a truth value. There is no consistent behaviour to model.
- The board's move operations (`move_to_freecell`, `move_to_tableau`, `move_tableau_to_tableau`, `move_to_foundation`, `move_freecell_to_foundation`, `move_supermove`), `clone`, `deal_cards` and deck initialisation are not defined by `BoardState` in `freecell_bot.py` and are not part of this model. The moves are the `BoardMoves` parameter, and the clone copies the four fields.
- Game.FreeCell.constructor: the source constructs the board with an `initialize_deck` argument that `BoardState.__init__` in `freecell_bot.py` does not accept, and then deals. The model stops before the deal.
- Game.FreeCell.constructor: in the source, the wrapper and its board share the same list and dict objects until the first undo. The model gives them equal values. In-place edits to the board's zones showing through the wrapper's fields are not captured.
- Board.BoardState.GetFoundationScore and Board.BoardState.GetFreeCellScore: `FOUNDATION_MULTIPLIER` and `FREECELL_MULTIPLIER` are never defined in the bot's file. They are the parameters of these two members, and `CalculateHeuristic` passes on the foundation multiplier. Choosing a weight profile per phase is not modelled.
- Board.HeuristicVictoryIffWon: the multiplier bound is the literal 15000. `Constants.PhaseWeightTrends` proves every profile's foundation multiplier is at most that value.
- The `print` calls in `calculate_heuristic` and `undo`, and the unused `time` import, are left out; they are output only.
- PriorityQueue.HeapPush and PriorityQueue.HeapPop: these model the list that `heapq` updates in place as a value that is returned. Their sift-down may arrange the heap differently from CPython's `heapq`. The contents, the heap invariant and the popped value are the same.
- PriorityQueue.MaxPriorityQueue: items are integers, whereas Python accepts any value that supports negation and ordering.
- PriorityQueue.MaxPriorityQueue.Pop: popping an empty queue raises `IndexError` in Python. The model requires a non-empty queue.
- Rules.IsValidTableauMove: the pile index is a natural number below the pile count. Python's negative indices, which count from the end, are not modelled.
- Rules.IsValidFoundationMove: a foundation key missing for a card of the right suit raises `KeyError` in Python. The model requires the key to be present in that case.
- Suits are a datatype rather than the strings of `TYPES`, so a card can have no suit outside the four.
- `CARD_STRING_SIZE` and `FREECELL_COUNT` are declared as constants but used nowhere in the modelled code.
