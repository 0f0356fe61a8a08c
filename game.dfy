/**
 * The game wrapper: it owns the live board, offers every move as "try it on a copy",
 * and keeps a stack of zone snapshots for undo.
 */
module Game {
  import opened Wrappers
  import opened Constants
  import opened Cards
  import opened Board

  /** A saved copy of the wrapper's three zones. */
  type Snapshot = (Tableau, FreeCells, Foundations)

  class FreeCell {
    var tableau: Tableau
    var freeCells: FreeCells
    var foundations: Foundations
    var boardState: BoardState
    var history: seq<Snapshot>

    /** A new game before the deal: empty zones shared with a new board, and no history. */
    constructor ()
      ensures |tableau| == TableauCount && forall i :: 0 <= i < |tableau| ==> tableau[i] == []
      ensures freeCells == [None, None, None, None]
      ensures foundations.Keys == (set s | s in Types) && forall s :: s in foundations ==> foundations[s] == []
      ensures fresh(boardState)
      ensures boardState.tableau == tableau && boardState.freeCells == freeCells
      ensures boardState.foundations == foundations && boardState.moveCount == 0
      ensures history == []
    {
      var piles: Tableau := seq(TableauCount, _ => []);
      var cells: FreeCells := seq(4, _ => None);
      var homes: Foundations := map s | s in Types :: [];
      tableau, freeCells, foundations := piles, cells, homes;
      boardState := new BoardState(piles, cells, homes);
      history := [];
    }

    /** The live board itself, not a copy. */
    function GetBoard(): (board: BoardState)
      reads this
    {
      boardState
    }

    /** A fresh copy of the live board. */
    method CloneBoardState() returns (copy: BoardState)
      ensures fresh(copy) && copy.Contents() == boardState.Contents()
    {
      copy := boardState.Clone();
    }

    /**
     * Copies the live board and tries `m` on the copy: the changed copy if the board
     * accepts the move, `null` if it refuses it. The live board is never touched.
     */
    method TryOnClone(moves: BoardMoves, m: Move) returns (result: BoardState?)
      ensures result != null <==> moves(boardState.Contents(), m).Some?
      ensures result != null ==> fresh(result) && result.Contents() == moves(boardState.Contents(), m).value
      ensures unchanged(this) && unchanged(boardState)
    {
      var temp := CloneBoardState();
      var ok := temp.ApplyMove(moves, m);
      if ok {
        result := temp;
      } else {
        result := null;
      }
    }

    method MoveToFreecell(moves: BoardMoves, tableauIdx: int) returns (result: BoardState?)
      ensures result != null <==> moves(boardState.Contents(), ToFreecell(tableauIdx)).Some?
      ensures result != null ==>
                fresh(result) && result.Contents() == moves(boardState.Contents(), ToFreecell(tableauIdx)).value
      ensures unchanged(this) && unchanged(boardState)
    {
      result := TryOnClone(moves, ToFreecell(tableauIdx));
    }

    method MoveToTableau(moves: BoardMoves, freecellIdx: int, tableauIdx: int) returns (result: BoardState?)
      ensures result != null <==> moves(boardState.Contents(), ToTableau(freecellIdx, tableauIdx)).Some?
      ensures result != null ==>
                fresh(result) &&
                result.Contents() == moves(boardState.Contents(), ToTableau(freecellIdx, tableauIdx)).value
      ensures unchanged(this) && unchanged(boardState)
    {
      result := TryOnClone(moves, ToTableau(freecellIdx, tableauIdx));
    }

    method MoveTableauToTableau(moves: BoardMoves, fromIdx: int, toIdx: int) returns (result: BoardState?)
      ensures result != null <==> moves(boardState.Contents(), TableauToTableau(fromIdx, toIdx)).Some?
      ensures result != null ==>
                fresh(result) &&
                result.Contents() == moves(boardState.Contents(), TableauToTableau(fromIdx, toIdx)).value
      ensures unchanged(this) && unchanged(boardState)
    {
      result := TryOnClone(moves, TableauToTableau(fromIdx, toIdx));
    }

    method MoveToFoundation(moves: BoardMoves, tableauIdx: int) returns (result: BoardState?)
      ensures result != null <==> moves(boardState.Contents(), ToFoundation(tableauIdx)).Some?
      ensures result != null ==>
                fresh(result) && result.Contents() == moves(boardState.Contents(), ToFoundation(tableauIdx)).value
      ensures unchanged(this) && unchanged(boardState)
    {
      result := TryOnClone(moves, ToFoundation(tableauIdx));
    }

    method MoveFreecellToFoundation(moves: BoardMoves, freecellIdx: int) returns (result: BoardState?)
      ensures result != null <==> moves(boardState.Contents(), FreecellToFoundation(freecellIdx)).Some?
      ensures result != null ==>
                fresh(result) &&
                result.Contents() == moves(boardState.Contents(), FreecellToFoundation(freecellIdx)).value
      ensures unchanged(this) && unchanged(boardState)
    {
      result := TryOnClone(moves, FreecellToFoundation(freecellIdx));
    }

    method MoveSupermove(moves: BoardMoves, sourceIdx: int, targetIdx: int, noCards: int)
      returns (result: BoardState?)
      ensures result != null <==> moves(boardState.Contents(), Supermove(sourceIdx, targetIdx, noCards)).Some?
      ensures result != null ==>
                fresh(result) &&
                result.Contents() == moves(boardState.Contents(), Supermove(sourceIdx, targetIdx, noCards)).value
      ensures unchanged(this) && unchanged(boardState)
    {
      result := TryOnClone(moves, Supermove(sourceIdx, targetIdx, noCards));
    }

    /** Won when every foundation of the live board holds 13 cards; the wrapper's own zones are not consulted. */
    predicate IsWinner()
      reads this, boardState
    {
      boardState.IsWinner()
    }

    /** Pushes a copy of the wrapper's three zones onto the history. */
    method SaveState()
      modifies this
      ensures history == old(history) + [(old(tableau), old(freeCells), old(foundations))]
      ensures tableau == old(tableau) && freeCells == old(freeCells) && foundations == old(foundations)
      ensures boardState == old(boardState)
      ensures IsWinner() == old(IsWinner())
    {
      history := history + [(tableau, freeCells, foundations)];
    }

    /**
     * Pops the most recent snapshot back into the wrapper's three zones; with no history,
     * nothing changes. The live board is not reassigned.
     */
    method Undo()
      modifies this
      ensures old(history) == [] ==> unchanged(this)
      ensures old(history) != [] ==>
                history == old(history)[..|old(history)| - 1] &&
                (tableau, freeCells, foundations) == old(history)[|old(history)| - 1]
      ensures boardState == old(boardState)
      ensures IsWinner() == old(IsWinner())
    {
      if history != [] {
        var last := history[|history| - 1];
        history := history[..|history| - 1];
        tableau, freeCells, foundations := last.0, last.1, last.2;
      }
    }
  }

  /**
   * With a well-built foundation for every suit on the live board, the game is won exactly
   * when all 52 cards are home.
   */
  lemma GameWonIffAllCardsHome(game: FreeCell)
    requires HasAllSuits(game.boardState.foundations) && WellBuilt(game.boardState.foundations)
    ensures game.IsWinner() <==> FoundationTotal(game.boardState.foundations) == 52
  {
    WinnerIffAllCardsHome(game.boardState.foundations);
  }

  /**
   * A snapshot is a copy: zones replaced after saving are restored by the next undo,
   * and the history is back to what it was.
   */
  method UndoRestoresSavedZones(game: FreeCell, edited: Tableau, cells: FreeCells, homes: Foundations)
    modifies game
    ensures game.tableau == old(game.tableau) && game.freeCells == old(game.freeCells)
    ensures game.foundations == old(game.foundations) && game.history == old(game.history)
  {
    game.SaveState();
    game.tableau, game.freeCells, game.foundations := edited, cells, homes;
    game.Undo();
  }
}
