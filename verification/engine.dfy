/** The per-cycle occupancy engine: the state array with one tag per station, the fold of
    each decoded train into it, the reset that starts a cycle, and the pass that turns the
    array into LED requests. */
module Engine {
  import opened Stations
  import opened Classifier
  import opened Position
  import opened Aggregation
  import opened Display

  /** The decoded fields of one train record of the feed (`rn`, `destSt`, `destNm`, `trDr`,
      `nextStaId`, `isApp`). */
  datatype Train = Train(
    run: string,
    destStation: string,
    destName: string,
    direction: string,
    nextStation: string,
    isApp: string)

  /** The outcome of deserialising one JSON document of a response. */
  datatype Document = Malformed | Parsed(trains: seq<Train>)

  /** The outcome of one request for the train positions. */
  datatype Response =
    | ConnectFailed
    | TimedOut
    | Delivered(documents: seq<Document>)

  /** The state array at the start of a cycle: every station empty. */
  function Cleared(): (s: seq<Classification>)
    ensures |s| == NumStations && forall i :: 0 <= i < NumStations ==> s[i] == NoTrain
  {
    seq(NumStations, _ => NoTrain)
  }

  function TagOf(t: Train): Classification {
    Classify(t.run, t.destStation, t.destName)
  }

  /** The slot a train affects, or -1 when its next station is not in the table. */
  function Landing(stations: seq<string>, t: Train): (i: int)
    requires |stations| == NumStations
    ensures -1 <= i < NumStations
    ensures i == -1 <==> forall j :: 0 <= j < NumStations ==> stations[j] != t.nextStation
  {
    var next := IndexOf(stations, t.nextStation);
    if next < 0 then -1 else TargetIndex(next, t.direction, t.isApp)
  }

  /** The state after one train is folded in. */
  function ApplyTrain(stations: seq<string>, state: seq<Classification>, t: Train): (r: seq<Classification>)
    requires |stations| == NumStations && |state| == NumStations
    ensures |r| == NumStations
    ensures Landing(stations, t) == -1 ==> r == state
    ensures forall i :: 0 <= i < NumStations && i != Landing(stations, t) ==> r[i] == state[i]
    ensures Landing(stations, t) >= 0 ==>
      r[Landing(stations, t)] == Merge(state[Landing(stations, t)], TagOf(t))
  {
    var i := Landing(stations, t);
    if i < 0 then state else state[i := Merge(state[i], TagOf(t))]
  }

  /** The state after the trains `ts` are folded in, in feed order. */
  function ApplyTrains(stations: seq<string>, state: seq<Classification>, ts: seq<Train>): (r: seq<Classification>)
    requires |stations| == NumStations && |state| == NumStations
    ensures |r| == NumStations
    decreases |ts|
  {
    if ts == [] then state
    else ApplyTrain(stations, ApplyTrains(stations, state, ts[..|ts| - 1]), ts[|ts| - 1])
  }

  /** The tags of the trains in `ts` that land on slot `i`, in feed order. */
  function TagsAt(stations: seq<string>, ts: seq<Train>, i: int): (cs: seq<Classification>)
    requires |stations| == NumStations
    ensures forall k :: 0 <= k < |cs| ==> TrainTag(cs[k])
    decreases |ts|
  {
    if ts == [] then []
    else
      var last := ts[|ts| - 1];
      TagsAt(stations, ts[..|ts| - 1], i) + (if Landing(stations, last) == i then [TagOf(last)] else [])
  }

  /** All trains of a response, in the order the documents and their records arrive;
      malformed documents contribute nothing. */
  function TrainsOf(docs: seq<Document>): seq<Train>
    decreases |docs|
  {
    if docs == [] then []
    else
      var last := docs[|docs| - 1];
      TrainsOf(docs[..|docs| - 1]) + (if last.Parsed? then last.trains else [])
  }

  /** Folding two batches one after the other is folding their concatenation. */
  lemma {:induction false} ApplyTrainsAppend(stations: seq<string>, state: seq<Classification>, a: seq<Train>, b: seq<Train>)
    requires |stations| == NumStations && |state| == NumStations
    ensures ApplyTrains(stations, ApplyTrains(stations, state, a), b) == ApplyTrains(stations, state, a + b)
    decreases |b|
  {
    if b == [] {
      assert a + b == a;
    } else {
      var init := b[..|b| - 1];
      ApplyTrainsAppend(stations, state, a, init);
      assert (a + b)[..|a + b| - 1] == a + init;
      assert (a + b)[|a + b| - 1] == b[|b| - 1];
    }
  }

  /** The whole-array fold, seen from one slot, is the slot fold of the tags that land there. */
  lemma {:induction false} ApplyTrainsPerSlot(stations: seq<string>, state: seq<Classification>, ts: seq<Train>, i: nat)
    requires |stations| == NumStations && |state| == NumStations && i < NumStations
    ensures ApplyTrains(stations, state, ts)[i] == FoldSlot(state[i], TagsAt(stations, ts, i))
    decreases |ts|
  {
    if ts != [] {
      var init, last := ts[..|ts| - 1], ts[|ts| - 1];
      ApplyTrainsPerSlot(stations, state, init, i);
      if Landing(stations, last) == i {
        var cs := TagsAt(stations, init, i) + [TagOf(last)];
        assert cs[..|cs| - 1] == TagsAt(stations, init, i);
      } else {
        assert TagsAt(stations, ts, i) == TagsAt(stations, init, i);
      }
    }
  }

  /** At the end of a cycle each station shows: nothing if no train landed on it; otherwise the
      tag of the first train that landed there, or the conflict marker when that train was
      directional and a later one ran the opposite way. */
  lemma CycleOutcome(stations: seq<string>, ts: seq<Train>, i: nat)
    requires |stations| == NumStations && i < NumStations
    ensures ApplyTrains(stations, Cleared(), ts)[i] == Outcome(TagsAt(stations, ts, i))
  {
    ApplyTrainsPerSlot(stations, Cleared(), ts, i);
    FoldFromEmpty(TagsAt(stations, ts, i));
  }

  /** A train whose next station is not in the table changes nothing, wherever it sits in the batch. */
  lemma UnknownStationIsDropped(stations: seq<string>, state: seq<Classification>, a: seq<Train>, t: Train, b: seq<Train>)
    requires |stations| == NumStations && |state| == NumStations
    requires forall j :: 0 <= j < NumStations ==> stations[j] != t.nextStation
    ensures ApplyTrains(stations, state, a + [t] + b) == ApplyTrains(stations, state, a + b)
  {
    ApplyTrainsAppend(stations, state, a + [t], b);
    ApplyTrainsAppend(stations, state, a, b);
    assert (a + [t])[..|a + [t]| - 1] == a;
  }

  /** Two trains that land on the same slot of an empty board leave there the slot fold of
      their two tags. */
  lemma TwoTrainsAt(stations: seq<string>, first: Train, second: Train, i: nat)
    requires |stations| == NumStations && i < NumStations
    requires Landing(stations, first) == i && Landing(stations, second) == i
    ensures ApplyTrains(stations, Cleared(), [first, second])[i] == Outcome([TagOf(first), TagOf(second)])
  {
    CycleOutcome(stations, [first, second], i);
    assert [first, second][..1] == [first];
    assert [first][..0] == [];
    assert TagsAt(stations, [first], i) == [TagOf(first)];
    assert TagsAt(stations, [first, second], i) == [TagOf(first)] + [TagOf(second)] == [TagOf(first), TagOf(second)];
  }

  /** An approaching train lands on its next station. */
  lemma LandingWhenApproaching(stations: seq<string>, t: Train, k: nat)
    requires |stations| == NumStations && k < NumStations
    requires IndexOf(stations, t.nextStation) == k && t.isApp != NotApproaching
    ensures Landing(stations, t) == k
  {
  }

  /** On the Blue Line table a train approaching Clark/Lake lands on index 16. */
  lemma ClarkLakeLanding(t: Train)
    requires t.nextStation == "40380" && t.isApp == "1"
    ensures Landing(Table, t) == 16
  {
    assert t.isApp != NotApproaching;
    assert Table[16] == t.nextStation;
    LookupInvertsTable(16);
    LandingWhenApproaching(Table, t, 16);
  }

  /** On the Blue Line table: a Cermak run arriving at Clark/Lake is not displaced by an
      O'Hare-bound train arriving after it. */
  lemma ClarkLakeCermakSticks(cermak: Train, toOHare: Train)
    requires cermak.nextStation == toOHare.nextStation == "40380"
    requires cermak.isApp == toOHare.isApp == "1"
    requires IsCermakRun(cermak.run)
    requires !IsCermakRun(toOHare.run) && toOHare.destStation == OHareDestId
    ensures ApplyTrains(Table, Cleared(), [cermak, toOHare])[16] == CermakRun
  {
    var cs := [TagOf(cermak), TagOf(toOHare)];
    assert cs[0] == CermakRun && !Directional(cs[0]);
    assert Outcome(cs) == CermakRun;
    ClarkLakeLanding(cermak);
    ClarkLakeLanding(toOHare);
    TwoTrainsAt(Table, cermak, toOHare, 16);
  }

  /** On the Blue Line table: trains arriving at Clark/Lake from opposite directions show the
      conflict marker in either order. */
  lemma ClarkLakeConflict(toOHare: Train, toForestPark: Train)
    requires toOHare.nextStation == toForestPark.nextStation == "40380"
    requires toOHare.isApp == toForestPark.isApp == "1"
    requires !IsCermakRun(toOHare.run) && toOHare.destStation == OHareDestId
    requires !IsCermakRun(toForestPark.run) && toForestPark.destStation == ForestParkDestId
    requires toForestPark.destName != OHareDestName
    ensures ApplyTrains(Table, Cleared(), [toOHare, toForestPark])[16] == BothDirections
    ensures ApplyTrains(Table, Cleared(), [toForestPark, toOHare])[16] == BothDirections
  {
    ClarkLakeLanding(toOHare);
    ClarkLakeLanding(toForestPark);
    TwoTrainsAt(Table, toOHare, toForestPark, 16);
    TwoTrainsAt(Table, toForestPark, toOHare, 16);
  }

  /** The occupancy state: one tag per station, updated in place. */
  class Board {
    /** The stop identifiers, one per slot. */
    const stations: seq<string>
    var trainState: array<Classification>

    ghost predicate Valid()
      reads this
    {
      |stations| == NumStations && trainState.Length == NumStations
    }

    /** The Blue Line table, and an array that starts zero-initialised, that is, every station empty. */
    constructor ()
      ensures Valid() && fresh(trainState)
      ensures stations == Table
      ensures trainState[..] == Cleared()
    {
      stations := Table;
      trainState := new Classification[NumStations](_ => NoTrain);
    }

    /** Start of a cycle: every slot back to empty. */
    method Reset()
      requires Valid()
      modifies trainState
      ensures trainState[..] == Cleared()
    {
      for i := 0 to NumStations
        invariant forall j :: 0 <= j < i ==> trainState[j] == NoTrain
      {
        trainState[i] := NoTrain;
      }
    }

    /** Folds one train into its slot: drops it when its next station is unknown, otherwise
        merges its tag into the slot behind or at its next station and leaves the rest alone. */
    method ParseTrain(t: Train)
      requires Valid()
      modifies trainState
      ensures trainState[..] == ApplyTrain(stations, old(trainState[..]), t)
    {
      var ledIndex := GetStationIndex(stations, t.nextStation);
      if ledIndex < 0 {
        assert Landing(stations, t) == -1;
        return;
      }
      ghost var next := ledIndex;
      var trainClass := Classify(t.run, t.destStation, t.destName);
      if t.isApp == NotApproaching {
        if t.direction == SouthboundDir {
          if ledIndex < NumStations - 1 {
            ledIndex := ledIndex + 1;
          }
        } else {
          if ledIndex > 0 {
            ledIndex := ledIndex - 1;
          }
        }
      }
      assert ledIndex == TargetIndex(next, t.direction, t.isApp) == Landing(stations, t);
      ghost var merged := Merge(trainState[ledIndex], trainClass);
      match trainState[ledIndex] {
        case NoTrain =>
          trainState[ledIndex] := trainClass;
        case OHareBound | JPBound =>
          if trainClass == FPBound || trainClass == UICBound {
            trainState[ledIndex] := BothDirections;
          }
        case FPBound | UICBound =>
          if trainClass == OHareBound || trainClass == JPBound {
            trainState[ledIndex] := BothDirections;
          }
        case CermakRun =>
        case BothDirections =>
      }
      assert trainState[ledIndex] == merged;
    }

    /** Folds the trains of one document in order; a malformed document changes nothing. */
    method ParseJson(doc: Document)
      requires Valid()
      modifies trainState
      ensures trainState[..] == ApplyTrains(stations, old(trainState[..]), if doc.Parsed? then doc.trains else [])
    {
      if doc.Malformed? {
        return;
      }
      var trains := doc.trains;
      for k := 0 to |trains|
        invariant trainState[..] == ApplyTrains(stations, old(trainState[..]), trains[..k])
      {
        ParseTrain(trains[k]);
        assert trains[..k + 1][..k] == trains[..k];
      }
      assert trains[..|trains|] == trains;
    }

    /** One request: on connection failure or timeout the state is left as it was; once a
        response has arrived the state is cleared and every document is folded in. */
    method WebRequest(response: Response)
      requires Valid()
      modifies trainState
      ensures response.Delivered? ==> trainState[..] == ApplyTrains(stations, Cleared(), TrainsOf(response.documents))
      ensures !response.Delivered? ==> trainState[..] == old(trainState[..])
    {
      if !response.Delivered? {
        return;
      }
      Reset();
      var docs := response.documents;
      for k := 0 to |docs|
        invariant trainState[..] == ApplyTrains(stations, Cleared(), TrainsOf(docs[..k]))
      {
        ParseJson(docs[k]);
        ApplyTrainsAppend(stations, Cleared(), TrainsOf(docs[..k]), if docs[k].Parsed? then docs[k].trains else []);
        assert docs[..k + 1][..k] == docs[..k];
      }
      assert docs[..|docs|] == docs;
    }

    /** One request per LED, in station order, for the current state. */
    method DisplayTrains() returns (cmds: seq<LedCommand>)
      requires Valid()
      ensures |cmds| == NumStations
      ensures forall i :: 0 <= i < NumStations ==> cmds[i] == Command(i as uint8, trainState[i])
      ensures forall i :: MaxLeds as int <= i < NumStations ==> cmds[i] == Ignored
    {
      cmds := [];
      for i := 0 to NumStations
        invariant |cmds| == i
        invariant forall j :: 0 <= j < i ==> cmds[j] == Command(j as uint8, trainState[j])
      {
        cmds := cmds + [Command(i as uint8, trainState[i])];
      }
    }

    /** One pass of the firmware's main loop: poll, then show. */
    method Cycle(response: Response) returns (cmds: seq<LedCommand>)
      requires Valid()
      modifies trainState
      ensures response.Delivered? ==> trainState[..] == ApplyTrains(stations, Cleared(), TrainsOf(response.documents))
      ensures !response.Delivered? ==> trainState[..] == old(trainState[..])
      ensures |cmds| == NumStations
      ensures forall i :: 0 <= i < NumStations ==> cmds[i] == Command(i as uint8, trainState[i])
    {
      WebRequest(response);
      cmds := DisplayTrains();
    }
  }
}
