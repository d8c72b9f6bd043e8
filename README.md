# Wargame scenario researcher — a verified model of its deterministic core

The wargame scenario researcher is a viewer for generated tactical scenarios. A scenario is a terrain grid plus a sequence of frames, and each frame lists the units on the map with their sides and positions.

This project models the parts of the program that do not depend on the language model or the UI:

- **the scenario data model** (`Models`): units, combat events, frames, scenarios and scenario extensions, the terrain and side enumerations, and the field constraints on each entity;
- **the consistency validator** (`Validator`, `ValidatorProperties`): it walks the frames in order and replaces each frame's error list with the errors it finds:
  - a unit out of bounds;
  - a unit on a water cell;
  - a unit that moved more than 3 tiles since the previous frame;
- **the session state** (`StateManager`): the scenario on screen, a frame cursor, and two counters. The state is a class whose methods change it in place;
- **the analytics** (`Analytics`): per-frame counts of Blue and Red units, and a per-cell heat map of occupation;
- **the Commander's Journal exporter** (`Exporter`, `ExporterProperties`): a Markdown report built as a list of lines and joined with newlines.

How the code is shaped:

- The validator is a method that updates an `array<Frame>` in place. Its contract ties the result to the pure function `ValidatedFrames`, and the properties are proved as lemmas about that function.
- The analytics and exporter loops are methods proved against recursive specification functions.
- The specification functions recurse from the back of a sequence, so that a left-to-right loop extends them one element per step.

Two conventions used throughout:

- Units are compared and reported by their squared distance. The source's `sqrt(d) > 3.0` becomes `d > 9`, an equivalent test for integer `d`.
- The Python dictionary `{u.unit_id: u for u in units}` is modelled by two functions:
  - `FirstIds` gives its keys in insertion order;
  - `IndexById` gives its values, where the last occurrence of an id wins.

## Model

| member | source | states |
|---|---|---|
| Models.TerrainCode | config.py:5-9 | Every terrain type's code lies in 0..3; that the codes are distinct, one per type, follows from TerrainOf |
| Models.TerrainOf | config.py:5-9 | A code names a terrain type exactly when it is in 0..3, and that type's code is the given code |
| Models.TerrainCodeRoundTrip | config.py:5-9 | Decoding the code of a terrain type gives that type back |
| Models.NewUnit | engine/models.py:5-13 | A unit built from its required fields has health 100, range 1 and status "Active". It satisfies the field constraints (coordinates ≥ 0, health in 0..100, range ≥ 1) exactly when its coordinates are non-negative; there is no upper bound |
| Models.NewCombatEvent | engine/models.py:15-20 | An event built from its required fields keeps them, and has no target and no outcome |
| Models.NewFrame | engine/models.py:22-26 | A new frame keeps its description and units, with an empty combat log and an empty error list |
| Validator.HasIdSnoc | engine/validator.py:22 | An id occurs in a unit list iff it occurs in the list without its last unit, or is that unit's id |
| Validator.FirstIdsPrefix | engine/validator.py:22 | Insertion order: the keys of the dictionary built from the first m units are the first keys of the whole list's dictionary, in the same order |
| Validator.DictionaryOfUnits | engine/validator.py:22 | The unit dictionary's keys are distinct; its keys are exactly the ids in the list, in first-appearance order (the keys of every prefix of the list start the keys of the whole list); each value is a unit of the list filed under its own id |
| Validator.LastOccurrenceWins | engine/validator.py:22 | The dictionary entry for an id is the id's last occurrence in the list |
| Validator.SpotErrorsShape | engine/validator.py:25-37 | Each unit contributes at most one placement error, so a frame has no more placement errors than units, and no placement error is a speed error |
| Validator.MoveErrorsOverSpec | engine/validator.py:40-49 | A speed error is raised for a current id exactly when the previous frame has that id and the squared distance moved is more than 9; it carries that distance, and there are no more errors than listed ids (one per id only when the ids are distinct, see MoveErrorsOverDistinct) |
| Validator.ValidatedFrames | engine/validator.py:19-52 | Validation keeps the number of frames |
| Validator.Validate | engine/validator.py:5-19 | Validation keeps the terrain and the number of frames |
| Validator.IndexUnits | engine/validator.py:22 | Building the dictionary gives its keys in insertion order and its values, and every key has a value |
| Validator.CheckPlacement | engine/validator.py:16-37 | The bounds-and-water loop, run with the grid's height and its first row's width, gives the frame's placement errors in unit order |
| Validator.CheckMovement | engine/validator.py:40-49 | The speed loop over the current dictionary gives the speed errors against the previous frame's dictionary |
| Validator.ValidateScenario | engine/validator.py:5-52 | After the in-place run, the frames are exactly `ValidatedFrames` of the original frames. Each frame's errors are reset, then filled with its placement errors and, from the second frame on, its speed errors against the frame before it |
| ValidatorProperties.UnitAtSnoc | engine/validator.py:25 | A unit with a given id and position is in a list iff it is in the front of the list or is the last unit |
| ValidatorProperties.ValidationTouchesOnlyErrors | engine/validator.py:19-52 | Validation keeps every frame's description, units and combat log, and replaces only its error list |
| ValidatorProperties.AdjacentFramesOnly | engine/validator.py:40-52 | Frame i's errors depend only on the units of frame i and of frame i - 1 |
| ValidatorProperties.ValidateIdempotent | engine/validator.py:21 | Because errors are reset rather than appended, validating twice gives the same frames as validating once |
| ValidatorProperties.ValidateScenarioIdempotent | engine/validator.py:21 | The same for whole scenarios |
| ValidatorProperties.SpotErrorsAppend | engine/validator.py:25-37 | The placement errors of two unit lists joined are the errors of each list, in order |
| ValidatorProperties.UnitContribution | engine/validator.py:25-37 | Unit k's placement errors sit between those of the units before it and those after it. They are one out-of-bounds error when it is off the grid (with no terrain check), one water error on an in-bounds water cell, and none otherwise |
| ValidatorProperties.OutOfBoundsIff | engine/validator.py:27-29 | An out-of-bounds error for (id, x, y) is raised iff a unit with that id stands at (x, y) outside the grid |
| ValidatorProperties.InWaterIff | engine/validator.py:31-37 | A water error for (id, x, y) is raised iff a unit with that id stands at (x, y) on an in-bounds cell holding code 1. A cell missing from a short row is never water |
| ValidatorProperties.NoColumnsAllOutOfBounds | engine/validator.py:16-29 | With a width of 0 (in particular an empty terrain), every unit gets exactly one out-of-bounds error, in unit order, and nothing else |
| ValidatorProperties.EmptyTerrainHasNoCells | engine/validator.py:16-17 | An empty terrain has height 0, width 0 and no in-bounds cell |
| ValidatorProperties.TooFastIff | engine/validator.py:40-52 | Frame i gets TooFast(id, d) iff all of these hold: i > 0; both frame i and frame i - 1 have the id; d is the squared distance between the id's last occurrences in the two frames; and d > 9 |
| ValidatorProperties.MoveErrorsOverDistinct | engine/validator.py:41-49 | For distinct ids, the speed errors name distinct ids |
| ValidatorProperties.AtMostOneSpeedErrorPerId | engine/validator.py:22-49 | A frame gets at most one speed error per unit id, even when ids are duplicated |
| ValidatorProperties.PlacementBeforeSpeed | engine/validator.py:25-49 | Within a frame, the placement errors come first, in unit order, and every error after a speed error is a speed error |
| ValidatorProperties.OpenGridCell | tests/test_validator.py:15 | Every cell of an n by n all-Open grid is in bounds and is not water |
| ValidatorProperties.OnOpenGrid | tests/test_validator.py:15 | A unit inside an n by n open grid stands on a dry in-bounds cell |
| ValidatorProperties.TwoUnitFrame | engine/validator.py:22-37 | A frame of two distinct units on dry cells has keys [a, b], the expected dictionary, and no placement error |
| ValidatorProperties.TwoUnitMoves | engine/validator.py:40-49 | Two distinct units that move each get their own speed check, in unit order |
| ValidatorProperties.OneUnitMoves | engine/validator.py:40-49 | A single unit that moves gets exactly its own speed check |
| ValidatorProperties.OneUnitPlacement | engine/validator.py:25-37 | A lone unit on a dry in-bounds cell raises no placement error |
| ValidatorProperties.TwoUnitsTwoFrames | engine/validator.py:19-52 | Two frames of the same two units on dry cells: the first frame is clean, and the second gets each unit's speed error, in unit order |
| ValidatorProperties.OneUnitTwoFrames | engine/validator.py:19-52 | Two frames of one unit on dry cells: the first frame is clean, and the second gets only that unit's speed error |
| ValidatorProperties.TooFastExample | tests/test_validator.py:6-22 | A tank moving from (0,0) to (10,10) on a 20×20 open map: frame 1 is clean, and frame 2 gets exactly TooFast("U1", 200) |
| ValidatorProperties.InWaterExample | tests/test_validator.py:24-41 | A unit at (1,1) on a water cell gets exactly InWater("U1", 1, 1) |
| ValidatorProperties.OneStep | engine/validator.py:44-49 | A one-tile step along a column raises no speed error |
| ValidatorProperties.TwoUnitsSlow | engine/validator.py:19-52 | Two units on dry cells that each move at most 3 tiles: neither frame gets an error |
| ValidatorProperties.SlowMovesFixture | tests/conftest.py:5-25 | The example scenario's units keep their ids across the two frames, have distinct ids, stand on dry cells of the open 20×20 map, and raise no speed error |
| ValidatorProperties.SlowMovesExample | tests/conftest.py:5-25 | The two-frame example scenario (A1 from (0,0) to (0,1), B1 from (19,19) to (19,18)) validates with no errors in either frame |
| ValidatorProperties.ExactlyThreeTilesExample | engine/validator.py:48 | The move (0,0)→(3,0), exactly 3 tiles, raises no error on either frame |
| ValidatorProperties.JustOverThreeTilesExample | engine/validator.py:48 | A move from (0,0) to (3,1), a distance of √10, gets exactly TooFast("A1", 10) |
| StateManager.Session.constructor | utils/state_manager.py:3-18 | A fresh session store holds none of the four keys |
| StateManager.Session.InitializeState | utils/state_manager.py:3-18 | Each missing key gets its default (counters 0, no scenario, cursor 0) and each existing key is kept unchanged, so a second call changes nothing. Afterwards all four keys are present and the cursor invariant holds |
| StateManager.Session.UpdateMetrics | utils/state_manager.py:20-23 | The run counter grows by one and the frame counter by numFrames. Reading a missing counter fails with MissingKey, and a run-counter increment made before the failure stays. The scenario and the cursor are not touched |
| StateManager.Session.SetScenario | utils/state_manager.py:25-29 | Stores the scenario and resets the cursor to 0, then counts one more run and adds the scenario's frame count, with the same error cases as UpdateMetrics. Both counters never decrease |
| StateManager.Session.LoadExistingScenario | utils/state_manager.py:31-34 | Stores the scenario and resets the cursor to 0, leaving both counters unchanged |
| StateManager.Session.NextFrame | utils/state_manager.py:36-39 | With a scenario shown, the cursor moves on by one if it is before the last frame and stays otherwise. With no scenario, nothing changes. Reading a missing key fails with MissingKey. The counters are not touched, and the cursor stays within [0, LastFrame] |
| StateManager.Session.PrevFrame | utils/state_manager.py:41-44 | With a scenario shown, the cursor moves back by one if it is past 0 and stays otherwise. With no scenario, nothing changes. The same error cases as NextFrame; the counters are not touched, and the cursor stays within bounds |
| StateManager.NavigationTrace | tests/test_state_manager.py:29-59 | Initialising a session, setting a two-frame scenario, then next, next, prev, prev gives the cursor values 0, 1, 1, 0, 0 and the counters (1 run, 2 frames) |
| Analytics.SideCounts | engine/analytics.py:20-25 | Blue count + Red count equals the number of units. The Blue count is how often Blue occurs among the units' sides, and the Red count how often Red occurs, so every non-Blue unit counts as Red |
| Analytics.CalculateForceCorrelation | engine/analytics.py:4-33 | One record per frame, in frame order, labelled i + 1, holding that frame's Blue and Red counts, which add up to its number of units |
| Analytics.RowTotalBump | engine/analytics.py:59-60 | Adding one to a cell adds one to its row's total |
| Analytics.GridTotalBump | engine/analytics.py:59-60 | Adding one to a cell adds one to the grid's total |
| Analytics.ZeroRowTotal | engine/analytics.py:53 | A row of zeros totals zero |
| Analytics.ZeroGridTotal | engine/analytics.py:53 | A grid of zeros totals zero |
| Analytics.CountAtSnoc | engine/analytics.py:57-60 | One more unit adds one to the count at its own cell and nothing at any other cell |
| Analytics.CountInsideSnoc | engine/analytics.py:59-60 | One more unit adds one to the count inside the grid exactly when it stands inside |
| Analytics.MarkUnit | engine/analytics.py:59-60 | Marking a unit keeps the heat map's shape, adds one at the unit's cell when it is inside the grid and nothing anywhere else, and grows the total by one exactly when the unit is inside |
| Analytics.AddFrame | engine/analytics.py:56-60 | Adding one frame's units keeps the height × width shape and adds to each cell the number of units standing on it. Units outside the grid change nothing, so the total grows by the number of units inside |
| Analytics.CalculateHeatmap | engine/analytics.py:35-62 | An empty terrain gives []. Otherwise the map is height × width (the width taken from row 0), and each cell holds the number of (frame, unit) occurrences at that cell. Out-of-bounds units are ignored, so the cells sum to the number of in-bounds occurrences |
| Exporter.NatToStringDigits | utils/exporter.py:21-25 | A rendered count is a non-empty string of decimal digits with no leading zero |
| Exporter.NatToStringRoundTrip | utils/exporter.py:21-25 | Reading back the decimal rendering of a number gives the number |
| Exporter.NatToStringInjective | utils/exporter.py:21-25 | Different numbers render differently |
| Exporter.JoinContains | utils/exporter.py:44 | Every line occurs in the joined text |
| Exporter.JoinAppend | utils/exporter.py:44 | Joining two non-empty runs of lines puts the separator between their joins |
| Exporter.UnitRowsGrow | utils/exporter.py:37-40 | One more unit adds its row at the end of the table rows |
| Exporter.AppendUnitRows | utils/exporter.py:37-40 | The unit loop appends one row per unit, in list order: "\| id \| side \| (x, y) \|" |
| Exporter.AppendFrameBlock | utils/exporter.py:25-42 | One pass of the frame loop appends the frame's block: its heading, its situation line, the table when the frame has units, and the closing "\n---" |
| Exporter.GenerateMarkdownReport | utils/exporter.py:4-44 | The line-by-line construction gives exactly `Report`: the fixed notice when there is nothing to report, otherwise the summary and the frame blocks joined with "\n" |
| ExporterProperties.StackPrefix | utils/exporter.py:24-42 | The lines before a block stay the prefix of every later stage of the report |
| ExporterProperties.LinesThroughPrefix | utils/exporter.py:24-42 | The lines through frame i start the lines through any later frame |
| ExporterProperties.SummaryFirst | utils/exporter.py:18-22 | A report's lines start with "# Commander's Journal", "", "## Tactical Summary", "**Total Frames:** n" and "---" |
| ExporterProperties.FrameBlockPlace | utils/exporter.py:24-42 | Frame i's block appears in the report's lines right after the blocks of the frames before it |
| ExporterProperties.BlocksInOrder | utils/exporter.py:24-42 | Frame i's block starts where the lines through frame i - 1 end, and is never empty |
| ExporterProperties.FrameBlockShape | utils/exporter.py:25-42 | A block's first line is "### Frame n", its second the situation line, and its last "\n---". It has 3 lines without units, or 6 + the number of units with them; with units its lines 2-4 are the caption, the table header and the separator |
| ExporterProperties.FrameBlockRow | utils/exporter.py:37-40 | Line 5 + k of a block is the row of unit k |
| ExporterProperties.TableIffUnits | utils/exporter.py:29-40 | A block contains the table header exactly when the frame has at least one unit |
| ExporterProperties.OccursTransitive | utils/exporter.py:44 | Text inside a line that occurs in a text occurs in that text |
| ExporterProperties.LineInReport | utils/exporter.py:44 | Every line of a non-empty report occurs in its text |
| ExporterProperties.SummaryInReport | tests/test_exporter.py:5-9 | A non-empty report contains the title and "**Total Frames:** n" |
| ExporterProperties.BlockLineInReport | utils/exporter.py:24-44 | Every line of every frame block occurs in the report |
| ExporterProperties.SituationLinesInReport | utils/exporter.py:25-26 | Frame i's heading "### Frame i+1" and its situation line occur in the report |
| ExporterProperties.DescriptionInSituation | utils/exporter.py:26 | A frame's description occurs in its situation line |
| ExporterProperties.SituationInReport | utils/exporter.py:25-26 | Frame i's heading and its description occur in the report |
| ExporterProperties.RowInReport | utils/exporter.py:37-40 | The row of every unit of every frame occurs in the report |
| ExporterProperties.IdInRow | utils/exporter.py:40 | A unit's id occurs in its row |
| ExporterProperties.UnitIdInReport | utils/exporter.py:40 | Every unit id of every frame occurs in the report |
| ExporterProperties.JoinFront | utils/exporter.py:44 | A join is the first line, the separator, then the join of the rest |
| ExporterProperties.ThirdLineStart | utils/exporter.py:18-44 | When the second line is empty and the separator is one character, the third line starts two characters after the first line |
| ExporterProperties.NoticeIffNothingToReport | utils/exporter.py:15-16 | The report is exactly "# Commander's Journal\n\nNo data available." iff there is no scenario or it has no frames; a real report never equals the notice |
| ExporterProperties.NoticeSaysNoData | tests/test_exporter.py:15-21 | With no scenario, or a scenario with no frames, the report contains "No data available." |
| ExporterProperties.FrameCountTwoText | utils/exporter.py:21 | The frame-count line for 2 frames reads "**Total Frames:** 2" |
| ExporterProperties.HeadingOneText | utils/exporter.py:25 | The heading of frame 1 reads "### Frame 1" |
| ExporterProperties.TwoFrameCount | tests/test_exporter.py:9 | A two-frame report contains "**Total Frames:** 2" |
| ExporterProperties.FirstFrameHeading | tests/test_exporter.py:10 | A non-empty report contains "### Frame 1" |
| ExporterProperties.TwoFrameReport | tests/test_exporter.py:5-13 | For the example scenario (two frames, the first described "Start" and holding units A1 and B1), the report contains the title, "**Total Frames:** 2", "### Frame 1", "Start", "A1" and "B1" |

Definitions the rows above are stated in (no contract of their own; each is the source's computation written as a function):

- `Models.ValidUnit`, `ValidFrame`, `ValidScenario`, `ValidExtension`: the field constraints of engine/models.py:9-12, lifted to frames, scenarios and extensions (engine/models.py:22-33).
- `Validator.Height`, `Width`, `InBounds`: the map dimensions and the bounds test of engine/validator.py:16-17 and 27.
- `Validator.IsWaterCell`: the water lookup with its short-row case, engine/validator.py:31-37.
- `Validator.DistSq`, `MAX_SPEED_SQ`: the squared distance of engine/validator.py:44 and the 3.0 threshold of line 48, squared.
- `Validator.FirstIds`, `IndexById`: the keys and values of the dictionary built at engine/validator.py:22.
- `Validator.UnitSpotErrors`, `SpotErrors`: the placement loop of engine/validator.py:25-37.
- `Validator.MoveErrorsOver`, `MoveErrors`: the speed loop of engine/validator.py:40-49 over the current dictionary.
- `Validator.FrameErrors`: one frame's errors after the reset at engine/validator.py:21, built by lines 25-49.
- `StateManager.LastFrame`: the cursor limit `len(frames) - 1` of utils/state_manager.py:36-39, or 0 without frames; `Session.Valid` keeps the cursor in [0, LastFrame].
- `Analytics.BlueCount`, `RedCount`: the counters of engine/analytics.py:20-25; `SidesOf` is the list of the units' sides.
- `Analytics.CountAt`, `Occurrences`, `Inside`, `CountInside`, `OccurrencesInside`: what the loops of engine/analytics.py:55-60 add up, per cell and inside the grid.
- `Analytics.RowTotal`, `GridTotal`: the sum of a heat-map row and of the whole map.
- `Exporter.NatToString`, `IntToString`: the decimal rendering the f-strings use at utils/exporter.py:21, 25 and 39.
- `Exporter.Join`: `"\n".join` at utils/exporter.py:44.
- `Exporter.Header`: the summary lines of utils/exporter.py:18-22.
- `Exporter.Position`, `UnitRow`, `UnitRows`: the position string and table rows of utils/exporter.py:37-40.
- `Exporter.HeadingLine`, `SituationLine`, `TableLines`, `FrameBlock`: one pass of the frame loop, utils/exporter.py:25-42.
- `Exporter.Stack`, `FrameBlocks`, `LinesThrough`, `ReportLines`: the lines after the first frames, and after all of them, utils/exporter.py:18-42.
- `Exporter.Report`: the whole result, notice case included, utils/exporter.py:15-44.
- `ValidatorProperties.OpenGrid`, `OnDryCell`, `SpeedCheck`: the all-Open map of tests/test_validator.py:15, a dry in-bounds cell, and the speed rule for one unit.

## Left out

- The scenario generator (`engine/ai_handler.py`) is not part of this model. It is a network call to a language model, plus prompt text and a pydantic schema.
- Terrain generation from map data (`engine/terrain_generator.py`), map rendering (`engine/map_renderer.py`), the Streamlit page (`app.py`), and the colours and prompt text in `config.py` are not part of this model; only the two enumerations of `config.py` are modelled.
- Pydantic parsing and coercion are not modelled. The field constraints are the predicates `ValidUnit`, `ValidFrame`, `ValidScenario` and `ValidExtension`, and nothing in the model enforces them at construction, just as the validator and the exporter do not rely on them.
- Validation errors are a datatype (`OutOfBounds`, `InWater`, `TooFast`), not formatted strings.
- The speed message shows the distance formatted with two decimals; the model records the squared distance instead.
- Floating point is not modelled. `math.sqrt(d) > 3.0` is modelled as `d > 9`, which agrees for every integer `d` that a float can represent. A squared distance too large for a float would make the source raise `OverflowError`; the model has no such failure.
- Validator.ValidateScenario: takes the terrain as a separate argument beside the array of frames, because the scenario's frame list is the in-place part.
- Validator.MoveErrorsOver: also checks that the id is in the current dictionary. The ids always come from that dictionary, so the check only keeps the function total.
- The `try/except IndexError` around the terrain lookup is modelled by `IsWaterCell`. A cell beyond the end of a short row is not water and raises no error. Negative indices cannot reach the lookup, because the bounds check rejects them first.
- The `hasattr(frame, 'unit_positions')` test in the exporter is always true for a `Frame`. Only its emptiness test is modelled.
- The Streamlit session store is modelled as four optional fields (`Slot`). Reading a missing key, which raises `AttributeError` in the source, is modelled as returning `MissingKey`. Other Streamlit behaviour (reruns, widgets, concurrency between sessions) is not modelled.
- How Python renders `unit.side` inside an f-string depends on the Python version for a `str`-valued enumeration. The report takes the rendering as a parameter `sideName`.
- The pandas `DataFrame` and its `set_index('Frame')` are modelled as a sequence of `ForceRecord` whose `frame` field is the label.
- Analytics.CalculateForceCorrelation: on a scenario with no frames the source builds `pd.DataFrame([])`, which has no `'Frame'` column, so `set_index('Frame')` raises `KeyError`; the model returns the empty sequence instead and does not model that failure.
- Analytics.CalculateHeatmap: the heat map's list of lists is modelled as a `seq<seq<int>>` that each increment reassigns, not as mutable nested lists. Possible aliasing between rows is not modelled, and the comprehension in the source creates none.
- Analytics.CalculateForceCorrelation, Analytics.CalculateHeatmap: the source also guards on `if frame.unit_positions:`. That guard changes nothing for an empty list, so the model loops over the list directly.
- The truthiness test on the scenario (`if not scenario_data`) is modelled as `None`. A model object is always truthy.
- JSON loading and saving of scenarios: no such code exists in the modelled files.
