/** The per-station display tags and the rule chain that tags one train. */
module Classifier {

  /** The seven tags a station slot can hold (the firmware's `Classification` enum). */
  datatype Classification =
    | NoTrain
    | OHareBound
    | FPBound
    | CermakRun
    | BothDirections
    | JPBound
    | UICBound

  /** Headed for the O'Hare end of the line (O'Hare, Jefferson Park, Rosemont). */
  predicate Northbound(c: Classification) {
    c == OHareBound || c == JPBound
  }

  /** Headed for the Forest Park end of the line (Forest Park, UIC-Halsted, Racine). */
  predicate Southbound(c: Classification) {
    c == FPBound || c == UICBound
  }

  predicate Directional(c: Classification) {
    Northbound(c) || Southbound(c)
  }

  /** Two directional tags travelling towards opposite ends of the line. */
  predicate Opposite(a: Classification, b: Classification) {
    (Northbound(a) && Southbound(b)) || (Southbound(a) && Northbound(b))
  }

  /** The tags a single train can receive: never "no train", never the two-train conflict marker. */
  predicate TrainTag(c: Classification) {
    c != NoTrain && c != BothDirections
  }

  // Destination stop identifiers and names recognised by the rule chain.
  const OHareDestId: string := "30171"
  const OHareDestName: string := "O'Hare"
  const ForestParkDestId: string := "30077"
  const ForestParkDestName: string := "Forest Park"
  const JeffersonParkDestId: string := "30247"
  const RosemontDestId: string := "30159"
  const JeffersonParkDestName: string := "Jefferson Park"
  const RosemontDestName: string := "Rosemont"
  const UicHalstedDestId: string := "30069"
  const RacineDestId: string := "30093"
  const UicHalstedDestName: string := "UIC-Halsted"
  const RacineDestName: string := "Racine"

  /** Run numbers beginning with '3' are 5000-series cars out of the 54/Cermak yard. */
  predicate IsCermakRun(run: string) {
    |run| > 0 && run[0] == '3'
  }

  predicate ToOHare(destStation: string, destName: string) {
    destStation == OHareDestId || destName == OHareDestName
  }

  predicate ToForestPark(destStation: string, destName: string) {
    destStation == ForestParkDestId || destName == ForestParkDestName
  }

  predicate ToJeffersonPark(destStation: string, destName: string) {
    destStation == JeffersonParkDestId || destStation == RosemontDestId
    || destName == JeffersonParkDestName || destName == RosemontDestName
  }

  predicate ToUic(destStation: string, destName: string) {
    destStation == UicHalstedDestId || destStation == RacineDestId
    || destName == UicHalstedDestName || destName == RacineDestName
  }

  /** Some rule of the chain recognises the destination. */
  predicate KnownDestination(destStation: string, destName: string) {
    ToOHare(destStation, destName) || ToForestPark(destStation, destName)
    || ToJeffersonPark(destStation, destName) || ToUic(destStation, destName)
  }

  /** First-match rule chain: Cermak run, then O'Hare, Forest Park, Jefferson Park/Rosemont,
      UIC-Halsted/Racine, and O'Hare for any destination it does not recognise. */
  function Classify(run: string, destStation: string, destName: string): (c: Classification)
    ensures TrainTag(c)
    ensures IsCermakRun(run) <==> c == CermakRun
    ensures !IsCermakRun(run) ==> Directional(c)
    ensures !IsCermakRun(run) && !KnownDestination(destStation, destName) ==> c == OHareBound
  {
    if IsCermakRun(run) then CermakRun
    else if ToOHare(destStation, destName) then OHareBound
    else if ToForestPark(destStation, destName) then FPBound
    else if ToJeffersonPark(destStation, destName) then JPBound
    else if ToUic(destStation, destName) then UICBound
    else OHareBound
  }

  /** Outside the Cermak rule the run number plays no part: the destination alone decides. */
  lemma RunOnlyMattersForCermak(run1: string, run2: string, destStation: string, destName: string)
    requires !IsCermakRun(run1) && !IsCermakRun(run2)
    ensures Classify(run1, destStation, destName) == Classify(run2, destStation, destName)
  {
  }

  /** A Cermak run is tagged as such whatever its destination says. */
  lemma CermakIgnoresDestination(run: string, d1: string, n1: string, d2: string, n2: string)
    requires IsCermakRun(run)
    ensures Classify(run, d1, n1) == Classify(run, d2, n2) == CermakRun
  {
  }

  /** Each directional tag is returned exactly when its rule is the first one to match. */
  lemma ClassifyFirstMatch(run: string, destStation: string, destName: string)
    requires !IsCermakRun(run)
    ensures Classify(run, destStation, destName) == FPBound <==>
      !ToOHare(destStation, destName) && ToForestPark(destStation, destName)
    ensures Classify(run, destStation, destName) == JPBound <==>
      !ToOHare(destStation, destName) && !ToForestPark(destStation, destName)
      && ToJeffersonPark(destStation, destName)
    ensures Classify(run, destStation, destName) == UICBound <==>
      !ToOHare(destStation, destName) && !ToForestPark(destStation, destName)
      && !ToJeffersonPark(destStation, destName) && ToUic(destStation, destName)
    ensures Classify(run, destStation, destName) == OHareBound <==>
      ToOHare(destStation, destName) || !KnownDestination(destStation, destName)
  {
  }
}
