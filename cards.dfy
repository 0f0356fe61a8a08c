/** Cards, their derived value and colour, and the three zones of a board. */
module Cards {
  import opened Wrappers
  import opened Constants

  /** A rank name that `CARD_VALUES` knows. */
  type Rank = r: string | r in CardValues witness "A"

  datatype CardColor = Red | Black

  /** Hearts and Diamonds are red; Clubs and Spades are black. */
  const RedSuits: seq<Suit> := [Hearts, Diamonds]

  function ColorOf(suit: Suit): (color: CardColor) {
    if suit in RedSuits then Red else Black
  }

  /** A card is its rank and suit; equality is by (rank, suit). */
  datatype Card = Card(rank: Rank, suit: Suit) {

    /** The rank's entry in `CARD_VALUES`: Ace is 1, King is 13. */
    function Value(): (v: int)
      ensures 1 <= v <= 13
    {
      CardValuesInjective();
      CardValues[rank]
    }

    function Color(): (color: CardColor) {
      ColorOf(suit)
    }
  }

  /** `card` may lie directly on `top` in a tableau pile: one lower and of the other colour. */
  predicate CanStackOn(card: Card, top: Card) {
    card.Value() == top.Value() - 1 && card.Color() != top.Color()
  }

  /** Every card of `pile` lies validly on the card before it. */
  predicate OrderedRun(pile: seq<Card>) {
    forall i :: 1 <= i < |pile| ==> CanStackOn(pile[i], pile[i - 1])
  }

  /** A foundation pile of `suit`: Ace, 2, 3, ... of that suit, with no gaps. */
  predicate IsFoundationPile(pile: seq<Card>, suit: Suit) {
    forall i :: 0 <= i < |pile| ==> pile[i].suit == suit && pile[i].Value() == i + 1
  }

  /** The eight working piles; the top of a pile is its last card. */
  type Tableau = seq<seq<Card>>

  /** The four holding slots; `None` is an empty slot. */
  type FreeCells = seq<Option<Card>>

  /** One pile per suit, built up from the Ace. */
  type Foundations = map<Suit, seq<Card>>

  function Last<T>(s: seq<T>): T
    requires s != []
  {
    s[|s| - 1]
  }

  /** The full deck: the thirteen ranks of each suit, suit by suit. */
  function Deck(): (d: seq<Card>)
    ensures |d| == 52
  {
    RankValues();
    seq(52, i requires 0 <= i < 52 => Card(Ranks[i % 13], Types[i / 13]))
  }

  /** The deck holds 52 pairwise distinct cards, and every card is in it. */
  lemma DeckIsComplete()
    ensures forall i, j :: 0 <= i < j < |Deck()| ==> Deck()[i] != Deck()[j]
    ensures forall c: Card :: c in Deck()
  {
    SuitsAndRanksDistinct();
    RankValues();
    var d := Deck();
    forall i, j | 0 <= i < j < |d| ensures d[i] != d[j] {
      if i / 13 == j / 13 {
        assert i % 13 != j % 13;
        assert d[i].rank != d[j].rank;
      } else {
        assert d[i].suit != d[j].suit;
      }
    }
    forall c: Card ensures c in d {
      var r :| 0 <= r < 13 && Ranks[r] == c.rank;
      assert c.suit in Types;
      var s :| 0 <= s < 4 && Types[s] == c.suit;
      assert d[13 * s + r] == c;
    }
  }

  /**
   * A card stacked on another is of a suit of the other colour: never the same suit, and
   * red exactly when the card beneath is black.
   */
  lemma StackedCardsAlternateSuits(card: Card, top: Card)
    requires CanStackOn(card, top)
    ensures card.suit != top.suit
    ensures card.suit in RedSuits <==> top.suit !in RedSuits
  {
  }

  /** An ordered run holds at most 13 cards, since each card is one lower than the one before. */
  lemma {:induction false} OrderedRunValues(pile: seq<Card>, i: nat)
    requires OrderedRun(pile) && i < |pile|
    ensures pile[i].Value() == pile[0].Value() - i
  {
    if i > 0 {
      OrderedRunValues(pile, i - 1);
    }
  }

  lemma OrderedRunAtMost13(pile: seq<Card>)
    requires OrderedRun(pile)
    ensures |pile| <= 13
  {
    if |pile| > 0 {
      OrderedRunValues(pile, |pile| - 1);
    }
  }

  /** A foundation pile holds at most the 13 cards of its suit. */
  lemma FoundationPileAtMost13(pile: seq<Card>, suit: Suit)
    requires IsFoundationPile(pile, suit)
    ensures |pile| <= 13
  {
    if |pile| > 0 {
      assert pile[|pile| - 1].Value() == |pile|;
    }
  }
}
