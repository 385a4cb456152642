# Opening Range study, modelled in Dafny

A model of the two pieces of logic in the Opening Range study plugin for the MotiveWave
charting host.

- **The opening-range aggregation** (module `OpeningRangeStudy`, class `OpeningRange`) walks
  the daily bars. It turns each bar's start time into a day key with the instrument's
  start-of-day rule. For each day not yet recorded, it moves a cursor over the
  opening-period bars to the first bar that starts at or after the key. It stores that
  bar's high and low as the day's range record, keyed by the day, and adds the record as a
  figure. Finally it picks the record that starts latest and publishes its high and low
  as OPEN_HIGH and OPEN_LOW.
- **The range figure** (module `RangeAreaFigure`, class `SimpleRangeArea`) covers four
  things. It decides visibility by an overlap test of its time span with the chart
  series. It lays itself out in pixels through the host's coordinate mappings. It places
  labels inside the right edge. It hit-tests a point against its enabled lines.

Model details:

- The day series is a sequence of bar start times.
- The opening series is a sequence of `Bar(start, high, low)`.
- The host's start-of-day, end-of-day, time-to-x, price-to-y, line clipping and
  point-to-line distance are function parameters.
- The host's figure list is a sequence that `addFigure` appends to and `clearFigures`
  empties.

The day loop is given a reference definition: `Scan` folds `Step` over the day keys and
uses `Advance` for the cursor. The loop itself, `DayLoop` with its inner loop
`AdvanceCursor`, and the methods `OpeningRange.RecordDays` and `OpeningRange.CalculateValues`
are proved to leave exactly the state `Scan` computes. The properties of the study are
proved about `Scan` as lemmas.

`Scan` yields `None` exactly when the source would read an opening bar past the end of
the series. This happens when no opening bar starts at or after a day that must be
recorded. The methods require that this does not happen.

## Model

| member | source | states |
|---|---|---|
| OpeningRangeStudy.OpeningRange.constructor | src/com/traderlabs/studies/OpeningRange.java:167 | A new study has no range records and no figures, and its map invariant holds |
| OpeningRangeStudy.OpeningRange.ClearState | src/com/traderlabs/studies/OpeningRange.java:99-103 | After clearing, the map of range records and the figure list are both empty, and the map invariant still holds |
| OpeningRangeStudy.DayLoop | src/com/traderlabs/studies/OpeningRange.java:130-150 | The for loop over the day bars, with its inner cursor loop and the cursor starting at 1, ends with exactly the records and figures of the reference day loop `Scan` |
| OpeningRangeStudy.OpeningRange.RecordDays | src/com/traderlabs/studies/OpeningRange.java:130-150 | The study's map and figure list end as the reference day loop leaves them, starting from their old contents and cursor 1 |
| OpeningRangeStudy.OpeningRange.CalculateValues | src/com/traderlabs/studies/OpeningRange.java:108-166 | Records the days as the reference loop does, after clearing the map and figures when show-all is off. It keeps every record under its own start with extend-lines off. It publishes nothing exactly when no record exists; otherwise it publishes the high and low of the unique record with the latest start |
| OpeningRangeStudy.DayKeySet | src/com/traderlabs/studies/OpeningRange.java:130-133 | The visited keys are the start-of-day of the day bars with index in [from, size); from the last index they are that day's key alone |
| OpeningRangeStudy.Step | src/com/traderlabs/studies/OpeningRange.java:134-149 | Definition of one pass of the day loop: skip a recorded day, otherwise scan the cursor forward and record and append the day's range. Its properties are stated by `ScanRecords`, `ScanAppendsNewRecords` and `ScanAddsOneFigurePerDay` |
| OpeningRangeStudy.Scan | src/com/traderlabs/studies/OpeningRange.java:130-150 | Definition of the whole day loop as passes over the day keys in order. Its properties are stated by `ScanRecords`, `RecalculateIsIdempotent`, `ScanAddsOneFigurePerDay` and `LastDayMatchesFreshScan` |
| OpeningRangeStudy.Advance | src/com/traderlabs/studies/OpeningRange.java:139-144 | The cursor stops at the first opening bar, from the cursor on, that starts at or after the key; every bar it passes starts before the key. There is no such bar exactly when every remaining bar starts before the key, which is the out-of-range read |
| OpeningRangeStudy.AdvanceCursor | src/com/traderlabs/studies/OpeningRange.java:139-144 | The while loop over the opening series stops at the index `Advance` names, reading only bars that exist |
| OpeningRangeStudy.AdvanceSkipsEarlyBars | src/com/traderlabs/studies/OpeningRange.java:139-144 | Starting the cursor scan later finds the same bar when every skipped bar starts before the key |
| OpeningRangeStudy.ScanRecords | src/com/traderlabs/studies/OpeningRange.java:130-150 | The cursor never moves back. The map ends with exactly the old keys plus the visited day keys. Records already present are kept unchanged. Each new record is that day's key, its end of day, and the high and low of an opening bar between the start and end cursor that starts at or after the key, with extend-lines off. Keying by start is preserved |
| OpeningRangeStudy.CalculationRecordsDays | src/com/traderlabs/studies/OpeningRange.java:119-133 | With show-all on, the map's keys are the old keys plus the day keys of indices 1 to size-1, so day index 0 is never visited. With show-all off, the key set is the last day's key alone |
| OpeningRangeStudy.ScanOverRecordedDays | src/com/traderlabs/studies/OpeningRange.java:134-137 | A loop over days that are all recorded changes no record, no figure and not the cursor |
| OpeningRangeStudy.RecalculateIsIdempotent | src/com/traderlabs/studies/OpeningRange.java:134-137 | Running the day loop again over the same days, from any cursor, leaves records and figures exactly as the first run left them |
| OpeningRangeStudy.ScanAppendsNewRecords | src/com/traderlabs/studies/OpeningRange.java:146-149 | The loop only appends figures. Each appended figure is the stored record of a day that was not recorded before, so a recorded day gets no figure |
| OpeningRangeStudy.ScanAddsOneFigurePerDay | src/com/traderlabs/studies/OpeningRange.java:146-149 | No two appended figures belong to the same day, and every newly recorded day has an appended figure |
| OpeningRangeStudy.SelectLatest | src/com/traderlabs/studies/OpeningRange.java:152-158 | The search over the records, in any order, finds nothing exactly when the map is empty. Otherwise it finds a stored record that no record starts after |
| OpeningRangeStudy.LatestIsUnique | src/com/traderlabs/studies/OpeningRange.java:152-164 | With records keyed by their start, at most one record is the latest, so the published values do not depend on the map's iteration order |
| OpeningRangeStudy.LastDayMatchesFreshScan | src/com/traderlabs/studies/OpeningRange.java:119-150 | Take days in order, with the cursor behind the first of them. The record the loop builds for the last day equals the record a loop over that day alone, from an empty map and cursor 1, builds |
| OpeningRangeStudy.ShowAllAgreesWithCurrentOnly | src/com/traderlabs/studies/OpeningRange.java:119-150 | From an empty study with at least two days whose keys are in order, the show-all calculation and the current-day-only calculation store the same record for the last day. The current-day-only one stores nothing else |
| RangeAreaFigure.SimpleRangeArea.constructor | src/traderlabs_studies/SimpleRangeArea.java:22-28 | The figure keeps start, end, top and bottom as given, so `GetHigh`/`GetLow` return top/bottom exactly. Extend-lines is off and nothing is laid out |
| RangeAreaFigure.SimpleRangeArea.SetExtendLines | src/traderlabs_studies/SimpleRangeArea.java:130-131 | After setting the flag, `IsExtendLines` returns the value set |
| RangeAreaFigure.SimpleRangeArea.IsVisible | src/traderlabs_studies/SimpleRangeArea.java:122-128 | Definition of the visibility test: hidden when the series ends before the figure starts or starts after it ends. Its meaning as an overlap of time spans is stated by `VisibleIffOverlap` |
| RangeAreaFigure.VisibleIffOverlap | src/traderlabs_studies/SimpleRangeArea.java:122-128 | For well-formed spans, the figure is visible exactly when its time span and the series' time span share an instant |
| RangeAreaFigure.SimpleRangeArea.Layout | src/traderlabs_studies/SimpleRangeArea.java:92-109 | When hidden or without bounds, no field changes. Otherwise the right edge is the bounds' max x with extend-lines on, and the translated end time with it off. The lines are the clipped top and bottom lines, and the area runs from the translated start to the right edge and from the top's y to the bottom's y. The figure's own data is unchanged |
| RangeAreaFigure.SimpleRangeArea.GetLX | src/traderlabs_studies/SimpleRangeArea.java:80-90 | The label is right-aligned to the line's end when that end is within the bounds. Otherwise it is shifted left by exactly the overflow plus the 5-pixel margin. Either way it ends inside the right edge |
| RangeAreaFigure.SimpleRangeArea.Contains | src/traderlabs_studies/SimpleRangeArea.java:111-120 | A hit requires the figure to be visible and at least one laid-out line with its style enabled |
| RangeAreaFigure.ContainsIffNearEnabledLine | src/traderlabs_studies/SimpleRangeArea.java:111-120 | A point hits the figure exactly when the figure is visible and the point is closer than 6 pixels to one of its laid-out, enabled lines |

## Left out

- `initialize` of the study registers settings and the user interface with the host; it has no logic to model.
- `onBarClose` only calls `calculateValues`.
- `draw` of the range figure only paints through the host's graphics context. The label position it uses is modelled by `GetLX`, with the label's pixel width as an input.
- Host calls are function parameters and are not modelled further. These are the instrument's start-of-day and end-of-day, the time and price mappings, line clipping, point-to-line distance, and price formatting. The series accessors become sequences, and the figure list becomes a sequence of records.
- OpeningRangeStudy.OpeningRange.ClearState: the base class's `clearState`, which the study calls first, is host code not in this model. The model takes it to discard the study's figures, as a study reset does, and so empties the figure list as well as the map.
- The map's synchronisation is not modelled; the study is modelled single-threaded.
- Prices are doubles in the source and only copied, so they are integers here. Times are 64-bit longs there and unbounded integers here. The `(int)` casts of the bounds' max x and the 32-bit wrap-around of pixel arithmetic are not modelled.
- The midpoint `my` computed in `layout` is never used and is not modelled.
- Records and figures: the study stores figure objects in its map and hands the same objects to the host. The model stores value records of start, end, high, low and extend-lines in the map and in the figure list. The study never changes a figure after storing it, so no state is lost, but aliasing between the two is not modelled.
- OpeningRangeStudy.OpeningRange.RecordDays: the loop (`DayLoop`) updates copies of the map and the figure list, and `RecordDays` stores them back when it ends. The source updates them in place. The final state is the same because nothing else reads them during the loop, but the intermediate states the host could observe between iterations are not modelled.
- Out-of-range reads: the inner cursor loop reads the opening bar at index `j` even when `j` has reached the series size. With show-all off and no day bars, the day loop starts at index -1. The source guards neither. `OpeningRange.CalculateValues`, `OpeningRange.RecordDays` and `DayLoop` require that neither read happens, rather than modelling the host's reaction to it.
- Days without opening data: such a day is not skipped. The cursor loop runs off the end of the opening series instead (OpeningRange.java:141-146). The model follows the code.
- Published values: the source writes the high and low to the chart's series. `CalculateValues` returns them instead.
- RangeAreaFigure.SimpleRangeArea.GetLX: it requires the drawing context to have bounds. The source reads the bounds' max x without a null check (SimpleRangeArea.java:85), so absent bounds throw there; that exception path is not modelled. `layout` checks for absent bounds and is modelled with that branch.
- RangeAreaFigure.SimpleRangeArea.Contains: its own contract states only the necessary conditions for a hit. The full if-and-only-if, with the 6-pixel radius, is `ContainsIffNearEnabledLine`.
- OpeningRangeStudy.SelectLatest: the host's map iteration order is unspecified, so the model visits the keys in an arbitrary order. It proves only what holds for every order.
