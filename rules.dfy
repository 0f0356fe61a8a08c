/** The placement rules the interface checks before it drops a card. */
module Rules {
  import opened Constants
  import opened Cards

  /** May `card` be dropped on tableau pile `pileIdx`? An empty pile takes any card. */
  predicate IsValidTableauMove(tableau: Tableau, pileIdx: nat, card: Card)
    requires pileIdx < |tableau|
  {
    if tableau[pileIdx] == [] then true
    else CanStackOn(card, Last(tableau[pileIdx]))
  }

  /**
   * May `card` be dropped on the foundation of `suit`? The suit is compared before the
   * foundation is looked up, so a card of another suit is refused even for a missing key.
   */
  predicate IsValidFoundationMove(foundations: Foundations, card: Card, suit: Suit)
    requires card.suit == suit ==> suit in foundations
  {
    if card.suit != suit then false
    else if foundations[suit] == [] then card.rank == "A"
    else card.Value() == Last(foundations[suit]).Value() + 1
  }

  /** An empty pile accepts every card. */
  lemma EmptyPileAcceptsAnyCard(tableau: Tableau, pileIdx: nat, card: Card)
    requires pileIdx < |tableau| && tableau[pileIdx] == []
    ensures IsValidTableauMove(tableau, pileIdx, card)
  {
  }

  /** On a non-empty pile: exactly one lower than the top card and of the other colour. */
  lemma NonEmptyPileRule(tableau: Tableau, pileIdx: nat, card: Card)
    requires pileIdx < |tableau| && tableau[pileIdx] != []
    ensures IsValidTableauMove(tableau, pileIdx, card) <==>
              card.Value() == Last(tableau[pileIdx]).Value() - 1 &&
              card.Color() != Last(tableau[pileIdx]).Color()
  {
  }

  /** A King can only go onto an empty pile. */
  lemma KingNeverOnNonEmptyPile(tableau: Tableau, pileIdx: nat, card: Card)
    requires pileIdx < |tableau| && tableau[pileIdx] != [] && card.rank == "K"
    ensures !IsValidTableauMove(tableau, pileIdx, card)
  {
    assert card.Value() == 13;
  }

  /** On an ordered pile, a drop is accepted exactly when the pile stays ordered. */
  lemma TableauMoveKeepsOrder(tableau: Tableau, pileIdx: nat, card: Card)
    requires pileIdx < |tableau| && OrderedRun(tableau[pileIdx])
    ensures IsValidTableauMove(tableau, pileIdx, card) <==> OrderedRun(tableau[pileIdx] + [card])
  {
    var pile := tableau[pileIdx];
    var grown := pile + [card];
    if pile != [] {
      if IsValidTableauMove(tableau, pileIdx, card) {
        forall i | 1 <= i < |grown| ensures CanStackOn(grown[i], grown[i - 1]) {
          if i < |pile| {
            assert grown[i] == pile[i] && grown[i - 1] == pile[i - 1];
          }
        }
      } else {
        assert !CanStackOn(grown[|pile|], grown[|pile| - 1]);
      }
    }
  }

  /** A card of another suit is always refused. */
  lemma WrongSuitRejected(foundations: Foundations, card: Card, suit: Suit)
    requires card.suit != suit
    ensures !IsValidFoundationMove(foundations, card, suit)
  {
  }

  /** An empty foundation takes only the Ace of its suit. */
  lemma EmptyFoundationTakesOnlyAce(foundations: Foundations, card: Card, suit: Suit)
    requires suit in foundations && foundations[suit] == []
    ensures IsValidFoundationMove(foundations, card, suit) <==> card.suit == suit && card.Value() == 1
  {
    CardValuesInjective();
  }

  /** A non-empty foundation takes the card of its suit one above its top card. */
  lemma NonEmptyFoundationRule(foundations: Foundations, card: Card, suit: Suit)
    requires suit in foundations && foundations[suit] != []
    ensures IsValidFoundationMove(foundations, card, suit) <==>
              card.suit == suit && card.Value() == Last(foundations[suit]).Value() + 1
  {
  }

  /** On a well-built foundation, a drop is accepted exactly when the foundation stays well built. */
  lemma FoundationMoveKeepsOrder(foundations: Foundations, card: Card, suit: Suit)
    requires suit in foundations && IsFoundationPile(foundations[suit], suit)
    ensures IsValidFoundationMove(foundations, card, suit) <==> IsFoundationPile(foundations[suit] + [card], suit)
  {
    var pile := foundations[suit];
    var grown := pile + [card];
    assert grown[|pile|] == card;
    if pile == [] {
      EmptyFoundationTakesOnlyAce(foundations, card, suit);
    } else {
      assert Last(pile) == pile[|pile| - 1];
    }
    if IsValidFoundationMove(foundations, card, suit) {
      forall i | 0 <= i < |grown| ensures grown[i].suit == suit && grown[i].Value() == i + 1 {
        if i < |pile| {
          assert grown[i] == pile[i];
        }
      }
    }
  }
}
