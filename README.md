# HY-8 culvert crossing record, modelled in Dafny

This project models the culvert crossing of the HY-8 runner
(`Hy8RunnerCulvertCrossing`). It covers two things:

- the crossing's default fields;
- the line-oriented crossing record that `write_crossing_to_file` writes for the HY-8
  analysis program.

The record has these parts, in order:

1. the crossing header and notes;
2. the discharge block, written after the flow list is recomputed;
3. the tailwater block, with its fixed six-row legacy rating table;
4. the optional user rating curve;
5. the roadway block, with the zipped station rows;
6. the culvert count and each barrel's own block;
7. the optional identifier line;
8. the terminator.

Layout:

- `numerals.dfy` (`Numerals`): decimal rendering of the integers the record writes (counts
  and codes), with its inverse.
- `flow.dfy` (`FlowModel`): the flow object the crossing owns. `Flow.ComputeList` is the
  loop that regenerates the flow list, proved against `ComputedFlow`.
- `culvert.dfy` (`CulvertModel`): the barrel's fields, its defaults, and what the culvert
  tests fix of the 12-line block a barrel writes (`PinnedBlock`).
- `record_text.dfy` (`RecordText`): the two kinds of line that carry a value, a keyword
  with a quoted text and a keyword with a count, and the proofs that both read back.
- `sink.dfy` (`Sink`): the open file, seen as the sequence of `write` calls made so far.
  `Hy8File.Write` is one `hy8_file.write(...)` call.
- `crossing.dfy` (`CrossingModel`):
  - `CrossingLines` is the specification of the whole record, one function per block.
  - Class `Crossing` holds the mutable fields. Its constructor gives the defaults.
  - `Crossing.WriteCrossingToFile` writes the record line by line, with one loop method
    per repeated row. It is proved to append exactly `CrossingLines` of the crossing
    after `compute_list`.
- `crossing_properties.dfy` (`CrossingProperties`): what the record promises. It covers
  each block's shape, the size, the framing, the identifier line, and a replay of the
  crossing test with its 36 expected lines.

Numbers the source writes with Python's `str` of a float are `real` values. They are
rendered by a formatter supplied by the caller (`Render.number`). The block a barrel writes
for itself is supplied by the caller too (`Render.culvert`), because the barrel's own
writer is not part of this model.

Details of `hy8runner/hy8_runner_crossing.py` that the model reproduces as written:

- the header keyword is followed by exactly three spaces;
- the legacy rating table always repeats the constant tailwater elevation with
  `0.0 0.0 0.0`;
- the identifier line is the fixed text `CROSSGUID            {self.uuid}`, because line 138
  is a plain string and not a formatted one;
- the material code of a barrel is not fixed by the crossing. The crossing test expects
  `CULVERTMATERIAL 1` for `corrugated steel`, so `PinnedBlock` only fixes code 1 for
  `concrete` and `corrugated steel`;
- `NUMSTATIONS` counts the stations, while the rows stop at the shorter of the station
  and elevation lists.

## Model

| member | source | states |
|---|---|---|
| CrossingModel.Crossing.constructor | hy8runner/hy8_runner_crossing.py:21-45 | A new crossing for `count` is named `Crossing {count+1}` with empty notes, tailwater type 1, side slope 1.0, every other tailwater value 0.0, no rating curve, roadway shape 1, width 0.0, no stations or elevations, surface `paved`, one default barrel, no identifier, and a fresh default flow |
| CrossingModel.Crossing.WriteCrossingToFile | hy8runner/hy8_runner_crossing.py:47-141 | Recomputes the flow list, changes no other field, appends exactly `CrossingLines` of the updated crossing to the file, and returns `(True, '')` |
| CrossingModel.Crossing.WriteDischarge | hy8runner/hy8_runner_crossing.py:75-84 | Runs compute_list, then appends the range, the method code, the count and one row per flow |
| CrossingModel.Crossing.WriteTailwater | hy8runner/hy8_runner_crossing.py:88-99 | Appends the type, the channel geometry and the six-row legacy table built from `[tw_constant_elevation] * 6` |
| CrossingModel.Crossing.WriteRatingCurve | hy8runner/hy8_runner_crossing.py:105-113 | Appends the user rating-curve block, or nothing when the curve is empty |
| CrossingModel.Crossing.WriteRoadway | hy8runner/hy8_runner_crossing.py:116-129 | The if/elif chain picks the code `SurfaceCode` gives; appends shape, width, surface code, station count and the zipped rows |
| CrossingModel.Crossing.WriteCulverts | hy8runner/hy8_runner_crossing.py:132-135 | Appends the culvert count and then every barrel's own block |
| CrossingModel.WriteFlowRows | hy8runner/hy8_runner_crossing.py:83-84 | The loop over the flow list appends `FlowRows` of the list |
| CrossingModel.WriteTwRows | hy8runner/hy8_runner_crossing.py:98-99 | The loop over the six tailwater values appends `TwRows` |
| CrossingModel.WritePointRows | hy8runner/hy8_runner_crossing.py:109-112 | The loop over the point indices appends the FLOW, ELEVATION and VELOCITY lines of every point |
| CrossingModel.WriteStationRows | hy8runner/hy8_runner_crossing.py:126-129 | The loop over the zipped pairs appends `StationRows`; the card name is ROADWAYSECDATA before the first row and ROADWAYPOINT afterwards |
| CrossingModel.WriteCulvertBlocks | hy8runner/hy8_runner_crossing.py:134-135 | The loop over the barrels appends each barrel's block in list order |
| CrossingModel.CrossingLines | hy8runner/hy8_runner_crossing.py:60-139 | The whole record of a crossing whose flow list is current, section by section in the order the source writes them. It has at least the 21 fixed lines plus one row per flow; `CrossingSize`, `CrossingFrame` and `CrossingGuid` state its exact size, its frame and its identifier line |
| CrossingModel.HeaderLines | hy8runner/hy8_runner_crossing.py:60-72 | The header is two lines: the name line, then the notes line |
| CrossingModel.DischargeLines | hy8runner/hy8_runner_crossing.py:80-84 | Three header lines, then one row per flow: 3 + len(flow_list) lines |
| CrossingModel.TailwaterLines | hy8runner/hy8_runner_crossing.py:88-99 | Always 10 lines, whatever the rating curve holds |
| CrossingModel.RatingCurveLines | hy8runner/hy8_runner_crossing.py:104-113 | Empty exactly when the curve has no points; otherwise 3n+3 lines |
| CrossingModel.RoadwayLines | hy8runner/hy8_runner_crossing.py:121-129 | Four header lines, then one row per zipped pair: 4 + min(stations, elevations) lines |
| CrossingModel.CulvertBlocks | hy8runner/hy8_runner_crossing.py:134-135 | The barrels' blocks in list order. When every barrel writes 12 lines, the section has 12 lines per barrel |
| CrossingModel.CulvertLines | hy8runner/hy8_runner_crossing.py:132-135 | The NUMCULVERTS line followed by the barrels' blocks: one line more than the blocks |
| CrossingModel.GuidLines | hy8runner/hy8_runner_crossing.py:137-138 | Empty exactly when there is no identifier; otherwise only the literal identifier line |
| CrossingModel.DischargeMethodCode | hy8runner/hy8_runner_crossing.py:76-78 | The method code is 0 or 1, and 0 exactly when the method is `min-design-max` |
| CrossingModel.FlowRows | hy8runner/hy8_runner_crossing.py:83-84 | One row per flow; row i carries flow i |
| CrossingModel.TwList | hy8runner/hy8_runner_crossing.py:92 | Six entries, all equal to the constant elevation |
| CrossingModel.TwRows | hy8runner/hy8_runner_crossing.py:98-99 | One continuation row per tailwater value, in order |
| CrossingModel.PointRows | hy8runner/hy8_runner_crossing.py:109-112 | Three lines per point: lines 3i, 3i+1 and 3i+2 carry the flow, elevation and velocity of point i |
| CrossingModel.SurfaceCode | hy8runner/hy8_runner_crossing.py:116-120 | The code is 2 exactly for `gravel`, 3 exactly for `user-defined`, and 1 for any other surface |
| CrossingModel.Zip | hy8runner/hy8_runner_crossing.py:127 | As many pairs as the shorter list has entries; pair i is (station i, elevation i) |
| CrossingModel.StationRows | hy8runner/hy8_runner_crossing.py:126-129 | One row per pair; row 0 uses ROADWAYSECDATA and every later row ROADWAYPOINT |
| CrossingProperties.DischargeOfComputedFlow | hy8runner/hy8_runner_crossing.py:75-84 | After compute_list, `DISCHARGEMETHOD 0` is written exactly for min-design-max and `DISCHARGEMETHOD 1` exactly otherwise. The count is the list length and the rows list the flows in order. For min-design-max that is 3 rows: min, design, max |
| CrossingProperties.LegacyRatingTable | hy8runner/hy8_runner_crossing.py:88-99 | The tailwater block has 10 lines: `NUMRATINGCURVE 6`, then a TWRATINGCURVE line and six rows, each with the constant elevation and three zero placeholders, whatever the rating curve holds |
| CrossingProperties.RatingCurveBlock | hy8runner/hy8_runner_crossing.py:105-113 | The block is empty exactly when the curve is. Otherwise it has 3n+3 lines: RATINGCURVE, `NUMPOINTS n`, a FLOW/ELEVATION/VELOCITY triple per point in order, and END RATINGCURVE |
| CrossingProperties.RoadwayBlock | hy8runner/hy8_runner_crossing.py:116-129 | Shape, width and surface code come first. NUMSTATIONS is the number of stations. There are min(stations, elevations) rows, the first ROADWAYSECDATA and the rest ROADWAYPOINT |
| CrossingProperties.CountsReadBack | hy8runner/hy8_runner_crossing.py:82-133 | Every count line reads back as its count: DISCHARGEXYUSER as the number of flow rows, NUMRATINGCURVE as 6, NUMPOINTS as the number of curve points, NUMSTATIONS as the number of stations (not of station rows), NUMCULVERTS as the number of barrels |
| CrossingProperties.CulvertBlocksInOrder | hy8runner/hy8_runner_crossing.py:134-135 | With 12-line barrel blocks, the barrel section has 12 lines per barrel and line 12k+j is line j of barrel k's block |
| CrossingProperties.PinnedCulvertLines | hy8runner/hy8_runner_crossing.py:132-135 | The culvert section is the count line, then 12 lines per barrel, ending in ENDCULVERT when there is a barrel |
| CrossingProperties.GuidLineIgnoresIdentifier | hy8runner/hy8_runner_crossing.py:137-138 | The identifier section is the one fixed literal line for every identifier, and empty when there is none |
| CrossingProperties.CrossingSize | hy8runner/hy8_runner_crossing.py:47-141 | The record has 21 + len(flow_list) lines, plus 3n+3 for a non-empty curve, plus min(stations, elevations), plus 12 per barrel, plus 1 when an identifier is set |
| CrossingProperties.HeaderReadsBack | hy8runner/hy8_runner_crossing.py:60-72 | The name and the notes read back from between the quotes of the two header lines |
| CrossingProperties.CrossingFrame | hy8runner/hy8_runner_crossing.py:60-139 | The record opens with the quoted name and then the quoted notes, and ends with ENDCROSSING |
| CrossingProperties.CrossingGuid | hy8runner/hy8_runner_crossing.py:137-139 | The line before ENDCROSSING is the identifier line exactly when an identifier is set |
| CrossingProperties.ExpectedTestLines | tests/test_hy8_runner_crossing.py:54-89 | The test's expected record has 36 lines |
| CrossingProperties.WriteCrossingTest | tests/test_hy8_runner_crossing.py:34-89 | A default crossing with the test's note, tailwater type 6 and box barrel writes exactly the 36 lines the test reads back |
| CrossingProperties.TestCulvertBlock | tests/test_hy8_runner_crossing.py:77-88 | What the culvert tests pin determines the test barrel's 12 lines completely |
| CulvertModel.DefaultCulvert | tests/test_hy8_runner_culvert.py:20-32 | A new barrel is `Culvert {count+1}`, a circular concrete barrel with zero geometry and one barrel |
| CulvertModel.PinnedBlock | tests/test_hy8_runner_culvert.py:52-63 | What is assumed of a barrel's own block, generalised from the tested barrels: 12 lines ending in ENDCULVERT, with the keywords of the test and the barrel's name, geometry and count |
| CulvertModel.PinnedBlockReadsBack | tests/test_hy8_runner_culvert.py:52-57 | In a pinned block the barrel's name reads back from between the quotes of the first line, and the number of barrels from the NUMBEROFBARRELS line |
| CulvertModel.CulvertTestBlock | tests/test_hy8_runner_culvert.py:52-63 | What the culvert tests pin determines the 10 x 5 box barrel's 12 lines completely |
| FlowModel.DefaultFlow | tests/test_hy8_runner_flow.py:20-28 | A new flow is min-design-max with zero values and an empty list |
| FlowModel.Flow.constructor | tests/test_hy8_runner_flow.py:20-28 | A new flow object holds `DefaultFlow` |
| FlowModel.Flow.ComputeList | hy8runner/hy8_runner_crossing.py:75 | The loop leaves the flow in the state `ComputedFlow` gives: only the list changes |
| FlowModel.ComputedFlow | hy8runner/hy8_runner_crossing.py:75 | compute_list changes the flow list and no other field |
| FlowModel.IncrementList | tests/test_hy8_runner_flow.py:40-59 | The generated list is never empty. Its entries are stated by `IncrementListShape`, `IncrementListIncreasing` and `IncrementListAligned` |
| FlowModel.ComputedFlowByMethod | tests/test_hy8_runner_flow.py:30-59 | min-design-max gives [min, design, max]. min-max-increment gives a list starting at min (or at max when min is not below it) and ending at max. Any other method keeps the list |
| FlowModel.IncrementListShape | tests/test_hy8_runner_flow.py:40-59 | The increment list ends with max, and every earlier entry is min + k*inc and below max. When min is below max, the grid stops only once its next value reaches max, so no grid value below max is left out and the list is fixed |
| FlowModel.IncrementListIncreasing | tests/test_hy8_runner_flow.py:40-59 | The increment list is strictly increasing |
| FlowModel.IncrementListAligned | tests/test_hy8_runner_flow.py:40-59 | When max = min + n*inc, the list is the n+1 grid points from min to max |
| FlowModel.ComputeListExamples | tests/test_hy8_runner_flow.py:30-59 | The four lists the flow test expects |
| Numerals.IntToString | hy8runner/hy8_runner_crossing.py:81-82 | An int renders as a non-empty numeral that starts with `-` exactly when it is negative |
| Numerals.NatToString | hy8runner/hy8_runner_crossing.py:82 | A count renders as decimal digits with no leading zero |
| Numerals.IntToStringRoundTrip | hy8runner/hy8_runner_crossing.py:81-82 | A rendered int is a numeral that reads back as the same value |
| Numerals.IntToStringInjective | hy8runner/hy8_runner_crossing.py:81-82 | Distinct ints render as distinct text, so a count line determines its count |
| Sink.Hy8File.Write | hy8runner/hy8_runner_crossing.py:60 | One `write` call appends exactly one entry, after the earlier ones |
| Sink.Hy8File.WriteLines | hy8runner/hy8_runner_crossing.py:134-135 | A barrel's own writer appends its whole block, after the earlier entries |
| RecordText.QuotedLineReadsBack | hy8runner/hy8_runner_crossing.py:60 | A keyword followed by a quoted text is lossless: the text reads back from between the quotes |
| RecordText.CountLineReadsBack | hy8runner/hy8_runner_crossing.py:82 | A keyword followed by a rendered count is lossless: the count reads back from the numeral |

## Left out

- Python's `str` of a float (`0.0`, `10.0`) is not modelled. Numbers are `real` values rendered by a formatter the caller supplies. The crossing test is replayed under the assumption that this formatter writes `0.0`, `1.0`, `2.0`, `10.0`, `98.0` and `100.0` as Python does.
- The int/float distinction of the source fields is not modelled: `tw_type` and `roadway_shape` are `int`, every other number is `real`.
- The file itself (opening, the trailing newline of each line, closing) is not modelled. The sink is the sequence of lines written.
- hy8runner/hy8_runner_flow.py is not part of this model. `compute_list` is reconstructed from its tests.
- FlowModel.Flow.ComputeList: requires a positive increment when min is below max, because the generating loop never ends otherwise.
- FlowModel.Flow.ComputeList: assumes that a method other than min-design-max and min-max-increment leaves the list unchanged.
- FlowModel.Flow.ComputeList: float accumulation in the increment loop is not modelled. The values are exact reals.
- hy8runner/hy8_runner_culvert.py is not part of this model. A barrel's block is a parameter of the writer, and the lemmas that need its shape assume `PinnedBlock` of it.
- CulvertModel.PinnedBlock: is an assumption about hy8_runner_culvert.py, generalised from the two tested barrels (both boxes with one barrel). It fixes `BARRELDATA <span> <rise> 0.012 0.012` for every shape, circles included, and takes `NUMBEROFBARRELS`, `INVERTDATA` and the quoted first-line name from the fields of any barrel. The shape code is fixed only for `box` and the material code only for `concrete` and `corrugated steel`.
- CulvertModel.DefaultCulvert: names a barrel `Culvert {count+1}` for every count, while the tests only show count 0. This is an assumption about hy8_runner_culvert.py.
- Sink.Hy8File.Write: the sink holds one entry per `write` call. A name, notes or barrel name containing a newline would make one call write several file lines, so the line counts and positions in `CrossingSize`, `CrossingFrame`, `CrossingGuid` and `CulvertBlocksInOrder` are counts and positions of write calls. They are file lines only when those texts contain no newline.
- The commented-out placeholders (location, irregular tailwater channel, weir coefficient) are not executed by the source and are not modelled.
- Validation of crossings, flows and barrels, and adding or deleting crossings and barrels, belong to files that are not part of this model (hy8_runner.py, hy8_runner_flow.py, hy8_runner_culvert.py).
- Running the HY-8 executable, and the class-level configuration that feeds it, are not modelled.
