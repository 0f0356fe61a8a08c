/** Card, game and weight-profile constants of the FreeCell solver. */
module Constants {

  /** The four suits, in the order of `TYPES`. */
  datatype Suit = Hearts | Diamonds | Clubs | Spades

  /** `TYPES`: every suit once, in dealing and foundation order. */
  const Types: seq<Suit> := [Hearts, Diamonds, Clubs, Spades]

  /** `RANKS`: the thirteen rank names, Ace low. */
  const Ranks: seq<string> := ["A", "2", "3", "4", "5", "6", "7", "8", "9", "10", "J", "Q", "K"]

  /** `CARD_VALUES`: the numeric value of each rank name. */
  const CardValues: map<string, int> :=
    map["A" := 1, "2" := 2, "3" := 3, "4" := 4, "5" := 5, "6" := 6, "7" := 7,
        "8" := 8, "9" := 9, "10" := 10, "J" := 11, "Q" := 12, "K" := 13]

  const TableauCount: nat := 8
  const CardStringSize: nat := 24
  const FreecellCount: nat := 4
  const VictoryScore: int := 9999999999

  /** The six keys of every weight profile. */
  const FoundationMultiplier := "FOUNDATION_MULTIPLIER"
  const CardExcavationMultiplier := "CARD_EXCAVATION_MULTIPLIER"
  const TableauEmptyScore := "TABLEAU_EMPTY_SCORE"
  const FreecellMultiplier := "FREECELL_MULTIPLIER"
  const OrderMultiplier := "ORDER_MULTIPLIER"
  const MoveCountScore := "MOVE_COUNT_SCORE"

  const WeightKeys: set<string> :=
    {FoundationMultiplier, CardExcavationMultiplier, TableauEmptyScore,
     FreecellMultiplier, OrderMultiplier, MoveCountScore}

  /** The game phases, in the order the game passes through them. */
  const Phases: seq<string> := ["early", "mid", "late"]

  /** `WEIGHT_PROFILES`: one weight table per phase. */
  const WeightProfiles: map<string, map<string, int>> := map[
    "early" := map[FoundationMultiplier := 10000, CardExcavationMultiplier := 300,
                   TableauEmptyScore := 100, FreecellMultiplier := 25,
                   OrderMultiplier := 5, MoveCountScore := 2],
    "mid" := map[FoundationMultiplier := 12000, CardExcavationMultiplier := 200,
                 TableauEmptyScore := 60, FreecellMultiplier := 20,
                 OrderMultiplier := 15, MoveCountScore := 3],
    "late" := map[FoundationMultiplier := 15000, CardExcavationMultiplier := 100,
                  TableauEmptyScore := 20, FreecellMultiplier := 15,
                  OrderMultiplier := 5, MoveCountScore := 5]
  ]

  /** `DEFAULT_WEIGHTS`: the fallback table. */
  const DefaultWeights: map<string, int> :=
    map[FoundationMultiplier := 10000, CardExcavationMultiplier := 200,
        TableauEmptyScore := 40, FreecellMultiplier := 20,
        OrderMultiplier := 0, MoveCountScore := 2]

  /** `RANKS[i]` has value `i + 1`, and the ranks are exactly the keys of `CARD_VALUES`. */
  lemma RankValues()
    ensures |Ranks| == 13
    ensures forall i :: 0 <= i < |Ranks| ==> Ranks[i] in CardValues && CardValues[Ranks[i]] == i + 1
    ensures forall r :: r in CardValues <==> r in Ranks
  {
  }

  /** Card values lie in 1..13 and no two ranks share a value. */
  lemma CardValuesInjective()
    ensures forall r :: r in CardValues ==> 1 <= CardValues[r] <= 13
    ensures forall r1, r2 :: r1 in CardValues && r2 in CardValues && CardValues[r1] == CardValues[r2] ==> r1 == r2
  {
    RankValues();
    forall r1, r2 | r1 in CardValues && r2 in CardValues && CardValues[r1] == CardValues[r2]
      ensures r1 == r2
    {
      var i :| 0 <= i < |Ranks| && Ranks[i] == r1;
      var j :| 0 <= j < |Ranks| && Ranks[j] == r2;
    }
  }

  /** Four distinct suits, thirteen distinct ranks. */
  lemma SuitsAndRanksDistinct()
    ensures |Types| == 4 && forall s: Suit :: s in Types
    ensures forall i, j :: 0 <= i < j < |Types| ==> Types[i] != Types[j]
    ensures forall i, j :: 0 <= i < j < |Ranks| ==> Ranks[i] != Ranks[j]
  {
    RankValues();
    forall s: Suit ensures s in Types {
      match s
      case Hearts => assert Types[0] == s;
      case Diamonds => assert Types[1] == s;
      case Clubs => assert Types[2] == s;
      case Spades => assert Types[3] == s;
    }
  }

  /** Every phase profile and the default table define the same six non-negative weights. */
  lemma ProfilesWellFormed()
    ensures WeightProfiles.Keys == set p | p in Phases
    ensures DefaultWeights.Keys == WeightKeys
    ensures forall p :: p in WeightProfiles ==> WeightProfiles[p].Keys == WeightKeys
    ensures forall p, k :: p in WeightProfiles && k in WeightProfiles[p] ==> WeightProfiles[p][k] >= 0
    ensures forall k :: k in DefaultWeights ==> DefaultWeights[k] >= 0
  {
    assert WeightProfiles.Keys == {"early", "mid", "late"};
    forall p | p in WeightProfiles
      ensures WeightProfiles[p].Keys == WeightKeys
      ensures forall k :: k in WeightProfiles[p] ==> WeightProfiles[p][k] >= 0
    {
      assert p == "early" || p == "mid" || p == "late";
    }
  }

  /** Foundation progress is worth more as the game advances; excavating buried cards is worth less. */
  lemma PhaseWeightTrends()
    ensures forall p :: p in WeightProfiles ==> WeightProfiles[p][FoundationMultiplier] <= 15000
    ensures WeightProfiles["early"][FoundationMultiplier] < WeightProfiles["mid"][FoundationMultiplier]
              < WeightProfiles["late"][FoundationMultiplier]
    ensures WeightProfiles["early"][CardExcavationMultiplier] > WeightProfiles["mid"][CardExcavationMultiplier]
              > WeightProfiles["late"][CardExcavationMultiplier]
  {
  }

  /** The victory score exceeds the largest foundation score any profile can give a full deck. */
  lemma VictoryScoreDominates()
    ensures forall p :: p in WeightProfiles ==> 52 * WeightProfiles[p][FoundationMultiplier] < VictoryScore
    ensures 52 * DefaultWeights[FoundationMultiplier] < VictoryScore
  {
  }
}
