/** The fixed table of Blue Line stop identifiers and the lookup over it.
    Index 0 is Forest Park, index 32 is O'Hare; one indicator LED per index. */
module Stations {

  /** Stop identifiers in indicator order, Forest Park first. */
  const Table: seq<string> := [
    "40390", // Forest Park
    "40980", "40180", "40010", "40970", "40920", "40250", "40220", "40810",
    "40470", "40350", "40430", "41340", "40070", "40790", "40370", "40380",
    "40490", "41410", "40320", "40590", "40670", "40570", "41020", "40060",
    "41240", "40550", "41330", "41280", "40750", "40230", "40820",
    "40890"  // O'Hare
  ]

  const NumStations: nat := 33

  const OHare: string := "40890"

  /** The first position of `station` in `table`, or -1 when no entry matches. */
  function IndexOf(table: seq<string>, station: string): (i: int)
    ensures -1 <= i < |table|
    ensures 0 <= i ==> table[i] == station && forall j :: 0 <= j < i ==> table[j] != station
    ensures i == -1 ==> forall j :: 0 <= j < |table| ==> table[j] != station
    decreases |table|
  {
    if table == [] then -1
    else if table[0] == station then 0
    else
      var k := IndexOf(table[1..], station);
      if k < 0 then -1 else k + 1
  }

  /** Linear search over a station table with early return, as the firmware does it over
      its global table. */
  method GetStationIndex(stations: seq<string>, station: string) returns (i: int)
    ensures -1 <= i < |stations|
    ensures 0 <= i ==> stations[i] == station && forall j :: 0 <= j < i ==> stations[j] != station
    ensures i == -1 ==> forall j :: 0 <= j < |stations| ==> stations[j] != station
    ensures i == IndexOf(stations, station)
  {
    var k := 0;
    while k < |stations|
      invariant 0 <= k <= |stations|
      invariant forall j :: 0 <= j < k ==> stations[j] != station
    {
      if stations[k] == station {
        return k;
      }
      k := k + 1;
    }
    return -1;
  }

  /** No stop identifier appears twice in the table. */
  lemma TableDistinct()
    ensures |Table| == NumStations
    ensures forall i, j :: 0 <= i < j < NumStations ==> Table[i] != Table[j]
  {
  }

  /** Looking up the identifier stored at index k of the line's table yields k: the lookup
      inverts the table. */
  lemma LookupInvertsTable(k: nat)
    requires k < NumStations
    ensures IndexOf(Table, Table[k]) == k
  {
    TableDistinct();
  }
}
