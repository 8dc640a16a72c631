/** Which station slot a train affects: its next station when it is approaching it,
    otherwise the station it last left, one index back along its direction of travel. */
module Position {
  import opened Stations

  /** Feed value of `trDr` for trains travelling towards Forest Park (higher index is behind them). */
  const SouthboundDir: string := "5"
  /** Feed value of `isApp` for a train that has not yet reached its next station. */
  const NotApproaching: string := "0"

  /** The offset exactly as written: the southbound step is guarded by `index < NumStations`,
      so a southbound train between stations whose next stop is O'Hare (index 32) lands on 33. */
  function TargetIndexAsWritten(next: nat, direction: string, isApp: string): (r: nat)
    requires next < NumStations
    ensures isApp != NotApproaching ==> r == next
    ensures isApp == NotApproaching && direction == SouthboundDir ==> r == next + 1
    ensures isApp == NotApproaching && direction != SouthboundDir ==> r == if next > 0 then next - 1 else 0
  {
    if isApp == NotApproaching then
      if direction == SouthboundDir then
        (if next < NumStations then next + 1 else next)
      else
        (if next > 0 then next - 1 else next)
    else next
  }

  /** The offset with the upper step clamped at the last station: approaching trains stay on
      their next station, southbound trains between stations move one index up, every other
      train between stations moves one index down, and neither step leaves the table. */
  function TargetIndex(next: nat, direction: string, isApp: string): (r: nat)
    requires next < NumStations
    ensures r < NumStations
    ensures isApp != NotApproaching ==> r == next
    ensures isApp == NotApproaching && direction == SouthboundDir ==>
      r == if next + 1 < NumStations then next + 1 else next
    ensures isApp == NotApproaching && direction != SouthboundDir ==>
      r == if next > 0 then next - 1 else 0
  {
    if isApp == NotApproaching then
      if direction == SouthboundDir then
        (if next < NumStations - 1 then next + 1 else next)
      else
        (if next > 0 then next - 1 else next)
    else next
  }

  /** The written guard admits index 33, one past the 33-slot state array, for a southbound
      train between stations whose next stop is O'Hare. */
  lemma AsWrittenOverrunsAtOHare()
    ensures IndexOf(Table, OHare) == NumStations - 1
    ensures TargetIndexAsWritten(IndexOf(Table, OHare), SouthboundDir, NotApproaching) == NumStations
  {
    LookupInvertsTable(NumStations - 1);
  }

  /** Apart from that one input the written offset and the clamped one agree. */
  lemma AsWrittenAgreesElsewhere(next: nat, direction: string, isApp: string)
    requires next < NumStations
    requires !(next == NumStations - 1 && direction == SouthboundDir && isApp == NotApproaching)
    ensures TargetIndexAsWritten(next, direction, isApp) == TargetIndex(next, direction, isApp)
  {
  }
}
