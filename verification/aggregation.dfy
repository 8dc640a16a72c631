/** How the trains that land on one station slot combine into that slot's tag. */
module Aggregation {
  import opened Classifier

  /** One step of the fold at a slot: an empty slot takes the incoming tag, opposite
      directions become the conflict marker, and everything else leaves the slot alone. */
  function Merge(current: Classification, incoming: Classification): (r: Classification)
    ensures current == NoTrain ==> r == incoming
    ensures Opposite(current, incoming) ==> r == BothDirections
    ensures current != NoTrain && !Opposite(current, incoming) ==> r == current
  {
    match current
    case NoTrain => incoming
    case OHareBound | JPBound =>
      if incoming == FPBound || incoming == UICBound then BothDirections else current
    case FPBound | UICBound =>
      if incoming == OHareBound || incoming == JPBound then BothDirections else current
    case CermakRun => current
    case BothDirections => current
  }

  /** The slot after folding the tags `cs`, in feed order, into `start`. */
  function FoldSlot(start: Classification, cs: seq<Classification>): Classification
    decreases |cs|
  {
    if cs == [] then start else Merge(FoldSlot(start, cs[..|cs| - 1]), cs[|cs| - 1])
  }

  /** The slot value predicted from the first train alone and whether any later train runs
      the other way: the fold from an empty slot, stated without the fold. */
  function Outcome(cs: seq<Classification>): Classification {
    if cs == [] then NoTrain
    else if Directional(cs[0]) && exists j :: 0 < j < |cs| && Opposite(cs[0], cs[j]) then BothDirections
    else cs[0]
  }

  /** Once a slot holds the Cermak tag or the conflict marker no later train changes it. */
  lemma {:induction false} StickyTags(start: Classification, cs: seq<Classification>)
    requires start == CermakRun || start == BothDirections
    ensures FoldSlot(start, cs) == start
    decreases |cs|
  {
    if cs != [] {
      StickyTags(start, cs[..|cs| - 1]);
    }
  }

  /** Folding the tags of single trains into an empty slot yields `Outcome`: the first train
      wins, unless it is directional and some later train runs the opposite way. */
  lemma {:induction false} FoldFromEmpty(cs: seq<Classification>)
    requires forall k :: 0 <= k < |cs| ==> TrainTag(cs[k])
    ensures FoldSlot(NoTrain, cs) == Outcome(cs)
    decreases |cs|
  {
    if |cs| > 1 {
      var init := cs[..|cs| - 1];
      FoldFromEmpty(init);
      assert init[0] == cs[0];
      if Directional(cs[0]) && exists j :: 0 < j < |init| && Opposite(init[0], init[j]) {
        assert FoldSlot(NoTrain, init) == BothDirections;
      } else {
        assert FoldSlot(NoTrain, init) == cs[0];
        if Directional(cs[0]) && Opposite(cs[0], cs[|cs| - 1]) {
          assert FoldSlot(NoTrain, cs) == BothDirections;
        } else {
          assert forall j :: 0 < j < |cs| - 1 ==> cs[j] == init[j];
        }
      }
    }
  }

  /** A late Cermak train does not displace a directional tag already in the slot. */
  lemma LateCermakIsLost(first: Classification)
    requires Directional(first)
    ensures FoldSlot(NoTrain, [first, CermakRun]) == first
  {
    FoldFromEmpty([first, CermakRun]);
  }

  /** Two trains running opposite ways give the conflict marker whichever is folded first. */
  lemma OppositePairCommutes(a: Classification, b: Classification)
    requires Opposite(a, b)
    ensures FoldSlot(NoTrain, [a, b]) == FoldSlot(NoTrain, [b, a]) == BothDirections
  {
    FoldFromEmpty([a, b]);
    FoldFromEmpty([b, a]);
  }
}
