# Blue Line occupancy engine

A Dafny model of the decision logic in the firmware of a Chicago Transit Authority Blue Line
map. Every ten seconds the firmware asks the CTA Train Tracker for the positions of all Blue
Line trains. It works out which of the line's 33 stations each train occupies, folds all
trains into one tag per station, and makes one LED request per station for that tag's colour.
Only the first `maxLeds` (two) of these requests reach the hardware; the others return early.

The model covers five pieces of `src/main.cpp`:

- `Stations` (`stations.dfy`): the fixed table of 33 stop identifiers, from Forest Park (index 0)
  to O'Hare (index 32), and `getStationIndex`, a linear search with early return.
- `Classifier` (`classifier.dfy`): the seven-tag `Classification` enum and
  `getTrainClassification`. This is a first-match rule chain over the run number, the
  destination stop id and the destination name.
- `Position` (`position.dfy`): the offset that moves a train that is not yet at its next
  station back to the station it last left.
  - Southbound (`trDr` = "5") means one index up.
  - Any other direction means one index down.
  - In the model the step is clamped at both ends of the table; the firmware's upper guard is
    off by one (see Findings).
- `Aggregation` (`aggregation.dfy`): the `switch` that merges a train's tag into a station
  slot, and the slot fold over a whole cycle.
- `Display` (`display.dfy`): the tag-to-colour switch of `displayTrains`, the `maxLeds` guard
  of `turnOffRgb`/`setRgb`, and the LED-to-board and LED-to-channel arithmetic of
  `getDriverForLed`/`getLedForDriver`.
- `Engine` (`engine.dfy`): the state array, which is the global `trainState`, as the class
  `Board`.
  - `ParseTrain`, `ParseJson`, `WebRequest` and `DisplayTrains` update or read the array in
    place, with loops and invariants.
  - Each of them is specified by the pure functions `ApplyTrain` and `ApplyTrains` (one train,
    a batch in feed order) or by `Display.Command`.

`Board` keeps its station table in a field. The constructor sets it to the Blue Line table.
The fold functions take the table as a parameter, and the facts about particular Blue Line
stations are lemmas about `Stations.Table`.

The model follows `src/main.cpp` and not the repository's other firmware variants. This matters
in five places:

- There are exactly seven tags, with no holiday or test-run tag.
- An unrecognised destination always falls back to `OHareBound`, whatever the direction.
- An incoming `CermakRun` does not override a slot that already holds a directional tag. The
  outcome therefore depends on order: a Cermak run folded after a directional train is lost
  (`Aggregation.LateCermakIsLost`). Folded first, it stays (`Aggregation.StickyTags`).
- The upper clamp of the position offset is off by one. The engine uses the corrected step, and
  the written one is modelled separately (see Findings).
- A response that arrives but fails to parse still blanks every station: `webRequest` resets the
  array before `parseJson` returns on its error, so `Delivered([Malformed])` gives `Cleared()`.

## Model

| member | source | states |
|---|---|---|
| `Stations.IndexOf` | src/main.cpp:487-495 | the result is the first index whose identifier equals the station, or -1 exactly when no entry matches; it lies in [-1, table length) |
| `Stations.GetStationIndex` | src/main.cpp:487-495 | the search loop returns the first matching index, or -1 when no entry matches, and agrees with `IndexOf` |
| `Stations.TableDistinct` | src/main.cpp:28-62 | the table has 33 entries and no stop identifier appears twice |
| `Stations.LookupInvertsTable` | src/main.cpp:28-62 | looking up the identifier stored at index k yields k, so every index of the line can be reached from the feed |
| `Classifier.Classify` | src/main.cpp:497-528 | a train is tagged `CermakRun` exactly when its run number is non-empty and starts with '3'; otherwise it gets a directional tag, and `OHareBound` when no destination rule matches; never `NoTrain` or `BothDirections` |
| `Classifier.RunOnlyMattersForCermak` | src/main.cpp:497-528 | outside the Cermak rule the run number has no influence: the destination alone decides |
| `Classifier.CermakIgnoresDestination` | src/main.cpp:498-501 | a run starting with '3' is `CermakRun` whatever its destination id and name |
| `Classifier.ClassifyFirstMatch` | src/main.cpp:503-527 | each directional tag is returned exactly when its rule is the first to match, in the order O'Hare, Forest Park, Jefferson Park/Rosemont, UIC-Halsted/Racine; `OHareBound` also for an unrecognised destination |
| `Position.TargetIndexAsWritten` | src/main.cpp:441-455 | the offset with its written guards: an approaching train keeps its index; the southbound guard never blocks, so a southbound train between stations always moves one up; any other train between stations moves one down, stopping at 0 |
| `Position.TargetIndex` | src/main.cpp:441-455 | an approaching train keeps its next-station index; a southbound train between stations moves one up, any other train between stations one down; the result always lies inside the 33-slot state array |
| `Position.AsWrittenOverrunsAtOHare` | src/main.cpp:444-448 | O'Hare is at index 32, and with the written guard a southbound train between stations whose next stop is O'Hare yields index 33, one past the end of `trainState` |
| `Position.AsWrittenAgreesElsewhere` | src/main.cpp:441-455 | on every other input the written offset and the clamped one give the same index |
| `Aggregation.Merge` | src/main.cpp:457-473 | an empty slot takes the incoming tag; opposite directions give `BothDirections`; in every other case the slot is unchanged |
| `Aggregation.StickyTags` | src/main.cpp:457-473 | once a slot holds `CermakRun` or `BothDirections`, no later train changes it |
| `Aggregation.FoldFromEmpty` | src/main.cpp:457-473 | folding single-train tags into an empty slot gives the first tag, unless that tag is directional and a later one runs the opposite way, which gives `BothDirections` |
| `Aggregation.LateCermakIsLost` | src/main.cpp:461-472 | a Cermak run that arrives after a directional train leaves the slot's directional tag in place |
| `Aggregation.OppositePairCommutes` | src/main.cpp:461-472 | two trains running opposite ways give `BothDirections` in either fold order |
| `Display.ColorsDistinguishTags` | src/main.cpp:282-311 | every tag has its own colour, and only `NoTrain` is dark |
| `Display.LedChannelClosedForm` | src/main.cpp:321-350 | for the 35 LEDs of seven boards, the first channel is 3 × (LED mod 5), and the LED's three channels fit on its 16-channel board |
| `Display.DriverClosedForm` | src/main.cpp:352-378 | the board for an LED is min(LED / 5, 6) |
| `Display.LedAddressRoundTrip` | src/main.cpp:321-378 | board × 5 + first channel / 3 gives back the LED number, so no two of the 35 LEDs share channels |
| `Display.Command` | src/main.cpp:240-269 | an LED at or past `maxLeds` gets no hardware request; otherwise an empty slot turns the LED off and any other tag sets it to that tag's colour, on the board and channel computed for the LED |
| `Engine.Landing` | src/main.cpp:430-455 | the slot a train affects, computed with the corrected step of `Position.TargetIndex`, lies in the state array, or is -1 exactly when its next station is not in the table; the written step can leave the array (see Findings) |
| `Engine.LandingWhenApproaching` | src/main.cpp:441-455 | an approaching train lands on the index of its next station |
| `Engine.ApplyTrain` | src/main.cpp:430-473 | folding one train changes nothing when its next station is unknown; otherwise the slot it lands on becomes `Merge` of its old tag and the train's tag, and every other slot is unchanged |
| `Engine.ApplyTrainsAppend` | src/main.cpp:403-405 | folding two batches one after the other equals folding their concatenation |
| `Engine.ApplyTrainsPerSlot` | src/main.cpp:403-405 | seen from one slot, folding a batch into the array is folding, in feed order, the tags of the trains that land on that slot |
| `Engine.CycleOutcome` | src/main.cpp:228-235 | after a reset and a batch, each station holds `NoTrain` if no train landed there; otherwise the first landing train's tag, or `BothDirections` when that tag is directional and a later landing train ran the other way |
| `Engine.UnknownStationIsDropped` | src/main.cpp:430-437 | a train whose next station is not in the table can be removed from any batch without changing the result |
| `Engine.TwoTrainsAt` | src/main.cpp:457-473 | two trains landing on one slot of an empty board leave the slot fold of their two tags |
| `Engine.ClarkLakeLanding` | src/main.cpp:430 | on the Blue Line table, a train approaching Clark/Lake (40380) lands on index 16 |
| `Engine.ClarkLakeCermakSticks` | src/main.cpp:457-473 | at Clark/Lake, a Cermak run followed by an O'Hare-bound train leaves `CermakRun` |
| `Engine.ClarkLakeConflict` | src/main.cpp:457-473 | at Clark/Lake, an O'Hare-bound and a Forest Park-bound train give `BothDirections` in either order |
| `Engine.Board.constructor` | src/main.cpp:109 | the board uses the Blue Line table, and its zero-initialised state array holds `NoTrain` in every slot |
| `Engine.Board.Reset` | src/main.cpp:228-231 | every slot is `NoTrain` afterwards |
| `Engine.Board.ParseTrain` | src/main.cpp:408-474 | the new array is `ApplyTrain` of the old one |
| `Engine.Board.ParseJson` | src/main.cpp:382-406 | a malformed document leaves the array unchanged; a parsed one folds its trains in order |
| `Engine.Board.WebRequest` | src/main.cpp:199-236 | on connection failure or timeout the array is untouched; once a response has arrived, the array is reset and then holds the fold of all decoded trains in order |
| `Engine.Board.DisplayTrains` | src/main.cpp:271-319 | one request per station in station order: the `Command` for that LED and its slot's tag; every LED past `maxLeds` is ignored |
| `Engine.Board.Cycle` | src/main.cpp:158-168 | one pass of the main loop: the array after `WebRequest`, and then the requests of `DisplayTrains` for that array |

## Findings

| source | as written | input that shows it | evidently intended | confidence | as-written member | corrected member |
|---|---|---|---|---|---|---|
| src/main.cpp:446-448 | `if (ledIndex < numStations) ledIndex += 1;` lets index 32 become 33, and line 457 then reads, and may write, `trainState[33]`, past the end of the array | a train with `nextStaId` "40890" (O'Hare, index 32), `trDr` "5" and `isApp` "0" | step up only while `ledIndex < numStations - 1`, so the index stays within [0, 32], just as the downward step stops at 0 | high; not executed | `Position.AsWrittenOverrunsAtOHare` (on `Position.TargetIndexAsWritten`) | `Position.TargetIndex` |

## Left out

- The Wi-Fi connection and its retry loop, the TCP connection, the HTTP request and the timeout polling (`connectWiFi`, `getPositions`, most of `webRequest`). These are network I/O. Their outcome is the `Engine.Response` parameter: connection failed, timed out, or delivered.
- JSON filtering and deserialisation through ArduinoJson. This is a foreign library. Each document of a response is given as already decoded: `Malformed` (deserialisation failed) or `Parsed` with its train records as strings. A field missing from a record, which the firmware would pass to `strcmp` as a null `const char*`, is not modelled.
- `nextStaNm`, `stationNames` and all `Serial` output. These are used only for debug printing.
- The brightness scaling of `setRgb`, which is double-precision arithmetic, and the `setPWM` calls themselves. `Display.Command` carries the unscaled colour and the board and channel it would be written to.
- The `Adafruit_PWMServoDriver` objects, `pwm.begin`, `setPWMFreq`, `setup` and `delay`. A board is identified by its number 0 to 6, whose I2C address is 0x40 plus that number.
- Engine.Board.ParseTrain: uses the clamped offset of `Position.TargetIndex`. The out-of-bounds access that the written guard allows is stated only by `Position.AsWrittenOverrunsAtOHare`, because a Dafny array cannot be indexed past its end.
- Engine.Landing: uses the clamped step of `Position.TargetIndex`. For a train with `nextStaId` "40890" (O'Hare), `trDr` "5" and `isApp` "0" it gives slot 32, and so `ApplyTrain`, `ApplyTrains`, `CycleOutcome`, `Engine.Board.WebRequest` and `Engine.Board.Cycle`, which fold through it, merge that train into O'Hare's slot. The firmware instead indexes slot 33, past the end of the array, and changes none of the 33 slots.
