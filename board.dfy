/** A board position and the scores the solver's evaluator gives it. */
module Board {
  import opened Wrappers
  import opened Constants
  import opened Cards

  /** How many elements of `s` satisfy `p`. */
  function CountWhere<T>(s: seq<T>, p: T -> bool): (count: nat) {
    if s == [] then 0
    else CountWhere(s[..|s| - 1], p) + (if p(Last(s)) then 1 else 0)
  }

  /** The positions of `s` whose element satisfies `p`. */
  function Positions<T>(s: seq<T>, p: T -> bool): (positions: set<int>) {
    set i | 0 <= i < |s| && p(s[i])
  }

  /** The count is the number of positions of `s` whose element satisfies `p`. */
  lemma {:induction false} CountWhereIsIndexCount<T>(s: seq<T>, p: T -> bool)
    ensures CountWhere(s, p) == |Positions(s, p)|
    ensures CountWhere(s, p) <= |s|
  {
    if s != [] {
      var n := |s| - 1;
      var front := s[..n];
      CountWhereIsIndexCount(front, p);
      var before := Positions(front, p);
      var after := Positions(s, p);
      if p(s[n]) {
        assert after == before + {n};
      } else {
        assert after == before;
      }
    }
  }

  predicate IsEmptyCell(cell: Option<Card>) {
    cell.None?
  }

  predicate IsEmptyPile(pile: seq<Card>) {
    pile == []
  }

  /** The number of cards on the foundation of `suit` (none if there is no such foundation). */
  function PileSize(foundations: Foundations, suit: Suit): (size: nat) {
    if suit in foundations then |foundations[suit]| else 0
  }

  /** The cards on the foundations of `suits`, counted in order. */
  function SumLengths(foundations: Foundations, suits: seq<Suit>): (total: nat) {
    if suits == [] then 0
    else SumLengths(foundations, suits[..|suits| - 1]) + PileSize(foundations, Last(suits))
  }

  /** The total number of foundation cards. */
  function FoundationTotal(foundations: Foundations): (total: nat) {
    SumLengths(foundations, Types)
  }

  lemma FoundationTotalBySuit(foundations: Foundations)
    ensures FoundationTotal(foundations) ==
              PileSize(foundations, Hearts) + PileSize(foundations, Diamonds) +
              PileSize(foundations, Clubs) + PileSize(foundations, Spades)
  {
    var one, two, three := [Hearts], [Hearts, Diamonds], [Hearts, Diamonds, Clubs];
    assert Types[..3] == three && three[..2] == two && two[..1] == one && one[..0] == [];
    assert SumLengths(foundations, one) == PileSize(foundations, Hearts);
    assert SumLengths(foundations, two) == SumLengths(foundations, one) + PileSize(foundations, Diamonds);
    assert SumLengths(foundations, three) == SumLengths(foundations, two) + PileSize(foundations, Clubs);
  }

  /** Every foundation present is built Ace upward in its own suit. */
  ghost predicate WellBuilt(foundations: Foundations) {
    forall s :: s in foundations ==> IsFoundationPile(foundations[s], s)
  }

  ghost predicate HasAllSuits(foundations: Foundations) {
    forall s: Suit :: s in foundations
  }

  /** The game is won when every foundation holds 13 cards. */
  predicate Won(foundations: Foundations) {
    forall s :: s in foundations ==> |foundations[s]| == 13
  }

  /** The length of `pile` if it is non-empty and ordered throughout, otherwise 0. */
  function PileOrderScore(pile: seq<Card>): (score: nat) {
    if pile != [] && OrderedRun(pile) then |pile| else 0
  }

  /** The sum of the lengths of the non-empty, fully ordered piles. */
  function OrderScore(tableau: Tableau): (score: nat) {
    if tableau == [] then 0
    else OrderScore(tableau[..|tableau| - 1]) + PileOrderScore(Last(tableau))
  }

  /** The number of cards on the tableau. */
  function TotalCards(tableau: Tableau): (total: nat) {
    if tableau == [] then 0
    else TotalCards(tableau[..|tableau| - 1]) + |Last(tableau)|
  }

  /** The evaluator's value of a position, given the foundation multiplier. */
  function Heuristic(tableau: Tableau, foundations: Foundations, foundationMultiplier: int): (score: int) {
    if Won(foundations) then VictoryScore
    else FoundationTotal(foundations) * foundationMultiplier + CountWhere(tableau, IsEmptyPile) + OrderScore(tableau)
  }

  /** The contents of a board: its three zones and its move counter. */
  datatype Position = Position(tableau: Tableau, freeCells: FreeCells, foundations: Foundations, moveCount: int)

  /** A single move request of the board, with 0-based pile and cell indices. */
  datatype Move =
    | ToFreecell(tableauIdx: int)
    | ToTableau(freecellIdx: int, tableauIdx: int)
    | TableauToTableau(fromIdx: int, toIdx: int)
    | ToFoundation(tableauIdx: int)
    | FreecellToFoundation(freecellIdx: int)
    | Supermove(sourceIdx: int, targetIdx: int, noCards: int)

  /**
   * The board's own move operations, whose rules are not part of this model: the new
   * position when the move is legal, `None` when it is refused.
   */
  type BoardMoves = (Position, Move) -> Option<Position>

  class BoardState {
    var tableau: Tableau
    var freeCells: FreeCells
    var foundations: Foundations
    var moveCount: int

    constructor (tableau: Tableau, freeCells: FreeCells, foundations: Foundations)
      ensures this.tableau == tableau && this.freeCells == freeCells && this.foundations == foundations
      ensures moveCount == 0
    {
      this.tableau := tableau;
      this.freeCells := freeCells;
      this.foundations := foundations;
      moveCount := 0;
    }

    function Contents(): Position
      reads this
    {
      Position(tableau, freeCells, foundations, moveCount)
    }

    /** An independent copy of the board: a new object with the same zones and move count. */
    method Clone() returns (copy: BoardState)
      ensures fresh(copy) && copy.Contents() == Contents()
    {
      copy := new BoardState(tableau, freeCells, foundations);
      copy.moveCount := moveCount;
    }

    /** Tries `m` on this board in place; a refused move leaves the board as it was. */
    method ApplyMove(moves: BoardMoves, m: Move) returns (ok: bool)
      modifies this
      ensures ok <==> moves(old(Contents()), m).Some?
      ensures Contents() == if ok then moves(old(Contents()), m).value else old(Contents())
    {
      var next := moves(Contents(), m);
      ok := next.Some?;
      if ok {
        tableau, freeCells, foundations, moveCount :=
          next.value.tableau, next.value.freeCells, next.value.foundations, next.value.moveCount;
      }
    }

    /** Foundation cards, each worth the foundation multiplier. */
    method GetFoundationScore(foundationMultiplier: int) returns (score: int)
      ensures score == FoundationTotal(foundations) * foundationMultiplier
      ensures foundationMultiplier >= 0 ==> score >= 0
    {
      score := 0;
      var i := 0;
      while i < |Types|
        invariant 0 <= i <= |Types|
        invariant score == SumLengths(foundations, Types[..i]) * foundationMultiplier
      {
        var suit := Types[i];
        assert Types[..i + 1][..i] == Types[..i];
        if suit in foundations {
          score := score + |foundations[suit]| * foundationMultiplier;
        }
        i := i + 1;
      }
      assert Types[..|Types|] == Types;
    }

    /** Empty free cells, each worth the free-cell multiplier. */
    function GetFreeCellScore(freecellMultiplier: int): (score: int)
      reads this
    {
      CountWhere(freeCells, IsEmptyCell) * freecellMultiplier
    }

    /** The number of empty tableau piles. */
    function GetEmptyTableauScore(): (count: nat)
      reads this
    {
      CountWhere(tableau, IsEmptyPile)
    }

    /** The total length of the non-empty piles that are ordered from bottom to top. */
    method GetTableauOrderScore() returns (score: int)
      ensures score == OrderScore(tableau)
    {
      score := 0;
      var p := 0;
      while p < |tableau|
        invariant 0 <= p <= |tableau|
        invariant score == OrderScore(tableau[..p])
      {
        var pile := tableau[p];
        if pile != [] {
          var validSequence := true;
          var i := 1;
          while i < |pile|
            invariant 1 <= i <= |pile|
            invariant validSequence
            invariant forall j :: 1 <= j < i ==> CanStackOn(pile[j], pile[j - 1])
          {
            var prevCard := pile[i - 1];
            var currCard := pile[i];
            if !(currCard.Value() == prevCard.Value() - 1 && currCard.Color() != prevCard.Color()) {
              validSequence := false;
              break;
            }
            i := i + 1;
          }
          assert validSequence <==> OrderedRun(pile);
          if validSequence {
            score := score + |pile|;
          }
        }
        assert tableau[..p + 1][..p] == tableau[..p];
        p := p + 1;
      }
      assert tableau[..|tableau|] == tableau;
    }

    /**
     * The victory score on a won board; otherwise foundation, empty-pile and order scores
     * summed. The free-cell score takes no part.
     */
    method CalculateHeuristic(foundationMultiplier: int) returns (h: int)
      ensures h == Heuristic(tableau, foundations, foundationMultiplier)
    {
      var foundationScore := GetFoundationScore(foundationMultiplier);
      var emptyTableauScore := GetEmptyTableauScore();
      var tableauOrderScore := GetTableauOrderScore();
      var win := IsWinner();
      if win {
        return VictoryScore;
      }
      h := foundationScore + emptyTableauScore + tableauOrderScore;
    }

    predicate IsWinner()
      reads this
    {
      Won(foundations)
    }
  }

  /** The free-cell score counts the empty slots: between none and all four. */
  lemma FreeCellScoreCountsEmptyCells(board: BoardState, freecellMultiplier: int)
    requires |board.freeCells| == FreecellCount
    ensures board.GetFreeCellScore(freecellMultiplier) ==
              |set i | 0 <= i < |board.freeCells| && board.freeCells[i].None?| * freecellMultiplier
    ensures 0 <= CountWhere(board.freeCells, IsEmptyCell) <= FreecellCount
  {
    var cells := board.freeCells;
    CountWhereIsIndexCount(cells, IsEmptyCell);
    var counted := Positions(cells, IsEmptyCell);
    var empty := set i | 0 <= i < |cells| && cells[i].None?;
    forall i ensures i in counted <==> i in empty {
    }
    assert counted == empty;
  }

  /** The empty-tableau score counts the empty piles: between none and all eight. */
  lemma EmptyTableauScoreCountsEmptyPiles(board: BoardState)
    requires |board.tableau| == TableauCount
    ensures board.GetEmptyTableauScore() == |set i | 0 <= i < |board.tableau| && board.tableau[i] == []|
    ensures 0 <= board.GetEmptyTableauScore() <= TableauCount
  {
    var piles := board.tableau;
    CountWhereIsIndexCount(piles, IsEmptyPile);
    var counted := Positions(piles, IsEmptyPile);
    var empty := set i | 0 <= i < |piles| && piles[i] == [];
    forall i ensures i in counted <==> i in empty {
    }
    assert counted == empty;
  }

  /** No pile adds more than its own cards, nor more than 13, to the order score. */
  lemma {:induction false} OrderScoreBounds(tableau: Tableau)
    ensures OrderScore(tableau) <= TotalCards(tableau)
    ensures OrderScore(tableau) <= 13 * |tableau|
  {
    if tableau != [] {
      OrderScoreBounds(tableau[..|tableau| - 1]);
      var pile := Last(tableau);
      if pile != [] && OrderedRun(pile) {
        OrderedRunAtMost13(pile);
      }
    }
  }

  /** On well-built foundations, all 13 cards of a suit present means at most 52 in all. */
  lemma FoundationTotalAtMost52(foundations: Foundations)
    requires WellBuilt(foundations)
    ensures FoundationTotal(foundations) <= 52
  {
    FoundationTotalBySuit(foundations);
    forall s: Suit ensures PileSize(foundations, s) <= 13 {
      if s in foundations {
        FoundationPileAtMost13(foundations[s], s);
      }
    }
  }

  /** With a foundation for every suit, the board is won exactly when all 52 cards are home. */
  lemma WinnerIffAllCardsHome(foundations: Foundations)
    requires HasAllSuits(foundations) && WellBuilt(foundations)
    ensures Won(foundations) <==> FoundationTotal(foundations) == 52
  {
    FoundationTotalBySuit(foundations);
    forall s: Suit ensures PileSize(foundations, s) <= 13 {
      FoundationPileAtMost13(foundations[s], s);
    }
    assert PileSize(foundations, Hearts) <= 13 && PileSize(foundations, Diamonds) <= 13;
    assert PileSize(foundations, Clubs) <= 13 && PileSize(foundations, Spades) <= 13;
    if FoundationTotal(foundations) == 52 {
      forall s | s in foundations ensures |foundations[s]| == 13 {
        match s
        case Hearts =>
        case Diamonds =>
        case Clubs =>
        case Spades =>
      }
    }
  }

  /**
   * The evaluator reaches the victory score exactly on a won board: on any other
   * well-built position it stays below it, for foundation multipliers up to 15000,
   * the largest any weight profile uses.
   */
  lemma HeuristicVictoryIffWon(tableau: Tableau, foundations: Foundations, foundationMultiplier: int)
    requires |tableau| == TableauCount && WellBuilt(foundations)
    requires 0 <= foundationMultiplier <= 15000
    ensures Heuristic(tableau, foundations, foundationMultiplier) == VictoryScore <==> Won(foundations)
    ensures Heuristic(tableau, foundations, foundationMultiplier) >= 0
  {
    if !Won(foundations) {
      FoundationTotalAtMost52(foundations);
      CountWhereIsIndexCount(tableau, IsEmptyPile);
      OrderScoreBounds(tableau);
      ScoreBelowVictory(FoundationTotal(foundations), foundationMultiplier,
                        CountWhere(tableau, IsEmptyPile), OrderScore(tableau));
    }
  }

  lemma ScoreBelowVictory(total: nat, multiplier: nat, empty: nat, order: nat)
    requires total <= 52 && multiplier <= 15000 && empty <= 8 && order <= 104
    ensures total * multiplier + empty + order < VictoryScore
  {
    ProductBound(total, multiplier, 52, 15000);
  }

  lemma ProductBound(a: nat, b: nat, x: nat, y: nat)
    requires a <= x && b <= y
    ensures a * b <= x * y
  {
    assert a * b <= x * b;
    assert x * b <= x * y;
  }
}
