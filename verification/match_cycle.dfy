/** The match section: three feature cards, one of them active. An interval
    moves the active card round the three, a click on a card makes it active,
    and the match score shown belongs to the active card. */
module MatchCycle {

  /** Profile Analysis, AI Matching and Culture Fit. */
  const FeatureCount: nat := 3

  /** The score shown for each feature, in percent. */
  const Scores: seq<nat> := [92, 88, 95]

  /** The active feature after one interval tick: the next card to the
      right, and the first one again after the last. */
  function Next(active: nat): (r: nat)
    requires active < FeatureCount
    ensures r < FeatureCount
    ensures active + 1 < FeatureCount ==> r == active + 1
    ensures active + 1 == FeatureCount ==> r == 0
  {
    (active + 1) % FeatureCount
  }

  /** Three ticks bring the active feature back, and on the way every
      feature is active once. */
  lemma ThreeTicksReturn(active: nat)
    requires active < FeatureCount
    ensures Next(Next(Next(active))) == active
    ensures {active, Next(active), Next(Next(active))} == {0, 1, 2}
  {
  }

  /** The score shown while `active` is the active feature. */
  function Score(active: nat): (s: nat)
    requires active < FeatureCount
    ensures active == 0 ==> s == 92
    ensures active == 1 ==> s == 88
    ensures active == 2 ==> s == 95
  {
    Scores[active]
  }

  /** Different features show different scores. */
  lemma ScoresDistinct(a: nat, b: nat)
    requires a < FeatureCount && b < FeatureCount
    ensures Score(a) == Score(b) <==> a == b
  {
  }

  /** Whether card `index` gets the highlighted border. */
  function Highlighted(index: nat, active: nat): (b: bool)
    ensures b <==> index == active
  {
    active == index
  }

  /** Whatever feature is active, exactly one of the three cards is highlighted. */
  lemma OneHighlighted(active: nat)
    requires active < FeatureCount
    ensures (set index | 0 <= index < FeatureCount && Highlighted(index, active)) == {active}
  {
  }

  /** The section's state: which feature is active. */
  class FeatureCycle {
    var activeFeature: nat

    predicate Valid()
      reads this
    {
      activeFeature < FeatureCount
    }

    constructor ()
      ensures Valid() && activeFeature == 0
    {
      activeFeature := 0;
    }

    /** The 3-second interval. */
    method Tick()
      requires Valid()
      modifies this
      ensures Valid()
      ensures activeFeature == Next(old(activeFeature))
    {
      activeFeature := (activeFeature + 1) % FeatureCount;
    }

    /** A click on card `index` (one of the three rendered cards). */
    method Click(index: nat)
      requires index < FeatureCount
      modifies this
      ensures Valid()
      ensures activeFeature == index
      ensures Highlighted(index, activeFeature)
    {
      activeFeature := index;
    }
  }
}
