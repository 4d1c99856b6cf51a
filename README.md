# Chart, replay and density model

This project models the core of a rhythm-game tool for seven-key charts in the BMS format. It also covers the replays recorded against those charts. The core has four parts:

- **Reading a chart** (`bms.py`). `BMS.__parse` reads the lines of a chart file:
  - the title, genre and base tempo headers;
  - the `#WAVxx` table;
  - the `#xxxyy:value` bar lines.
  Each bar line is decoded into notes, tempo changes, stops or a bar length. These are merged into the bar they name, and each bar's lists are then sorted by timing. The JSON encoder of the chart values is modelled as a function from values to JSON objects, with the decoder that reads them back.
- **Converting a replay** (`replay.py`). A replay's keylog is converted into bars of notes and long-note segments. This uses:
  - the chart's time windows (`__calculate_timing`);
  - the mapping from an instant to a bar and a position in it (`calc_timing`);
  - the per-lane press state of `convert`.
  The replay's option and lane permutation (`get_pattern_modify`) and the keycode-to-lane mapping are modelled too.
- **The density score** (`bmslevel.py`). `InputTimeline` computes the instant of every input on each of the eight lanes. `CalcDensity.calc` turns the gaps between consecutive inputs into a score.
- **Tempo conversion** (`common.py`): milliseconds per beat and beats per millisecond.

Fractions and floats are exact reals. A Python exception is an `Err` value of `Basics.Error`. The modelled kinds are:

- a failed `assert`;
- `ValueError` from `int(...)` or `float(...)`;
- `StopIteration` from a table lookup;
- division by zero;
- an instant after the last time window;
- a duplicate press;
- an unsupported random option;
- a missing pattern;
- a lane index outside the eight-lane tuple.

Each operation that loops in the source is a `method` proved equal to a specification function, and the properties are lemmas about those functions. The chart reader is a class, `BmsParser.Bms`, whose methods update its fields as `BMS` does. The converted replay is a class, `ReplayConvert.BeatConvertedReplay`. A bar is a value: the source always writes a fetched bar back into the list, so a copy behaves like the shared object. The one place where the source stores a bar *object* inside another bar (`replay.py:279`) is modelled as the `BarObject(number)` long-note item.

The long-note items `LNStart`, `LN` and `LNEnd` and the bar field `lnnotes` are imported from `bms` by `replay.py:9` and read by `bmslevel.py:39`, but the `bms.py` in this repository defines neither the classes nor the field. The model supplies them (`BmsTypes.LnItem`, `BarInfo.lnnotes`), and a bar read from a chart has eight empty long-note lanes. The source as it stands would raise `AttributeError` at `bmslevel.py:39` on a parsed chart; the model instead treats that bar as having no long notes.

The model follows the code as written in these places:

- A chart's bars are kept in order of first reference. Missing bar numbers are not filled in.
- A bar's length defaults to `Fraction()`, that is 0.
- The JSON key for background notes is `backgroud`.
- Because the `#BPM` header test comes first, the `#BPMxx` definition table is never filled. The `#STOPxx` table is never filled either, since the parsed definition is not appended.
- `re_bar` prefers the pair alternative, so `#00102:10.5` sets a bar length of 10.
- `get_key_index` never yields 8, so `is_scratch` never holds and the scratch threshold is unused.
- In the density score, an input at instant 0 reads as "no input yet". A lane at 0, 200 and 600 ms gives the gaps none, none, 400.
- `InputTimeline` adds the tail of a bar with tempo changes to the clock once for each non-empty lane.

## Model

| member | source | states |
|---|---|---|
| Common.MsPerBeatTimesBeatPerMs | common.py:3-7 | for a non-zero tempo, ms per beat times beats per ms is exactly 1 |
| Common.BeatsRoundTrip | common.py:3-7 | converting a duration to beats and back gives the same duration |
| Common.MsPerBeat | common.py:3-4 | one beat at a non-zero tempo lasts 60000 / bpm ms: bpm beats of it fill exactly one minute; a positive tempo gives a positive length |
| Common.BeatPerMs | common.py:6-7 | beats per millisecond have the sign of the tempo: positive, negative or zero with it |
| Common.MsPerBeatDecreasing | common.py:3-4 | a faster tempo gives a strictly shorter beat |
| BmsTypes.NewBar | bms.py:42-49 | a fresh `BarInfo` has the given number, beat 0 and every list empty |
| BmsTypes.SortBy | bms.py:51-62 | `list.sort(key=timing)` yields a list in non-decreasing key order that is a permutation of the input |
| BmsTypes.SortByStable | bms.py:51-62 | elements with equal timings come out in their input order, as Python's stable `list.sort` keeps them |
| BmsTypes.BarInfo.Sort | bms.py:51-62 | every note lane, the tempo changes and the stops come out sorted by timing, each a permutation of the original; number, beat, background notes and long-note lanes are untouched |
| BarStore.FindBar | bms.py:128-134 | the lookup returns the first index holding the number, and None exactly when no bar has it |
| BarStore.GetBar | bms.py:128-137 | the bar returned has the asked number; it is a stored bar when one exists and a fresh empty bar otherwise |
| BarStore.SetBarNumbers | bms.py:139-147 | storing a bar keeps numbers unique, keeps the number list when the number is present, and otherwise appends the number at the end: the new list is `Touch` of the old one |
| BarStore.Touch | bms.py:139-147 | the number list after storing bar m contains m, contains exactly the old numbers and m, and keeps the old list as its prefix |
| BarStore.TouchAll | bms.py:139-147 | after storing bars in turn, the list holds exactly the old numbers and the stored ones, with the old list as its prefix |
| BarStore.TouchAllUnique | bms.py:139-147 | storing bars from an empty list lists each number once |
| BarStore.TouchAllFirstTouch | bms.py:139-147 | storing bars from an empty list lists the numbers in the order each was first stored |
| BarStore.GetSetSame | bms.py:128-147 | reading back the number just stored gives the stored bar |
| BarStore.GetSetOther | bms.py:128-147 | storing a bar leaves the bar found for every other number unchanged |
| Text.RStrip | bms.py:227 | the result is the longest prefix of the line that does not end in whitespace; everything dropped is whitespace |
| Text.From | bms.py:234 | slicing from position k yields the remaining characters, or nothing past the end |
| Text.TokenValue | bms.py:160 | a two-character token is a number in the base exactly when both characters are digits of the base, and its value is first digit times base plus second |
| Text.UnsignedDecimal | bms.py:242 | a decimal numeral without sign denotes a non-negative value |
| Text.PairRun | bms.py:7 | counts the maximal run of leading `[0-9A-Z]{2}` pairs: all counted characters are in the class and the next pair is not |
| Text.BarValue | bms.py:7 | the `value` group is a non-empty prefix of the text after the colon |
| Text.MatchBarLine | bms.py:7 | a matched bar line has a number below 1000, a two-character channel and a non-empty value |
| Text.MatchDefinition | bms.py:8-10 | a matched definition gives a two-digit base-36 identifier and a non-empty value |
| Decode.NonZero | bms.py:155-158 | the kept token indexes are exactly the tokens other than "00", strictly increasing |
| Decode.DecodeGridLoop | bms.py:149-163 | the decoders' shared loop returns what the grid specification gives: None, the odd-length assertion, the first token error, or the events |
| Decode.GridEventsShape | bms.py:155-162 | the loop succeeds exactly when every non-"00" token decodes; it then yields one event per such token in token order, and otherwise fails with some token's error |
| Decode.DecodeGridEdges | bms.py:150-152 | an empty value gives None, and only an empty value does; an odd length fails the assertion |
| Decode.PositionsIncreasing | bms.py:161 | positions `Fraction(i, n)` of kept tokens lie in [0, 1) and strictly increase |
| Decode.DecodedAfterStart | bms.py:158-161 | a decoder that stamps each event with `Fraction(i, length)` never yields an event before the bar's start |
| Decode.DecodeNotes | bms.py:149-163 | an empty value gives None and only an empty value does; an odd length fails the assertion; a decoded bar has at most one note per token |
| Decode.DecodeBpms | bms.py:165-179 | the same edge cases for tempo changes: None exactly for an empty value, the assertion for an odd length, at most one change per token |
| Decode.DecodeExBpms | bms.py:181-195 | the same edge cases for table tempo changes: None exactly for an empty value, the assertion for an odd length, at most one change per token |
| Decode.DecodeStops | bms.py:197-210 | the same edge cases for stops: None exactly for an empty value, the assertion for an odd length, at most one stop per token |
| Decode.NotesRefused | bms.py:149-163 | a well-formed value decodes exactly when every non-"00" token is base 36, and otherwise fails with ValueError |
| Decode.NotesDecoded | bms.py:149-163 | `__parse_note` fails with ValueError exactly when a token is not base 36; otherwise it gives one note per non-"00" token at i/n with the token's base-36 sample, strictly ordered within the bar |
| Decode.BpmsDecoded | bms.py:165-179 | `__parse_bpm` reads each non-"00" token as a hexadecimal tempo of at least 1, at position i/n, strictly ordered |
| Decode.NonZeroTokenValue | bms.py:173-176 | a non-"00" token that parses has a value of at least 1 |
| Decode.ExBpmsWithoutTable | bms.py:181-195 | with no `#BPMxx` entries, a value succeeds (with no events) exactly when every token is "00", and otherwise fails with StopIteration |
| Decode.StopsWithoutTable | bms.py:197-210 | with no `#STOPxx` entries, a value succeeds exactly when every token is "00", and otherwise fails with StopIteration |
| Decode.StopsDecoded | bms.py:197-210 | every stop decoded has timing 0 (never set) and lasts some table entry's value over 192 |
| Decode.FullGridDecoded | bms.py:149-163 | a grid whose tokens are all non-"00" base-36 numbers decodes to one note per slot, in slot order, with the token's value at i/n |
| Decode.DecodeEncodeGrid | bms.py:149-163 | writing non-zero samples as a grid and decoding it gives back one note per slot with that sample, at position i/n |
| Decode.DecodeEncodeSparseGrid | bms.py:149-163 | writing samples with empty slots as "00" and decoding gives back exactly the non-zero samples, in slot order, each at its position i/n |
| Merge.MergeSpec | bms.py:212-220 | merging never changes or reorders the existing destination events |
| Merge.MergeItem | bms.py:212-220 | the nested scan appends each source event whose timing is not yet present; the destination is a prefix of the result, and a destination without repeated timings stays without them and equals first-timing-wins over destination then source |
| Merge.MergeAllItem | bms.py:222-223 | the background merge keeps the destination and then every source note, duplicates included |
| Merge.KeepFirstKeys | bms.py:212-220 | the first-timing-wins reference keeps one event per timing and exactly the timings of its input |
| Merge.MergeSpecKeys | bms.py:212-220 | the timings present after merging are exactly those of destination and source |
| Merge.MergeSpecElements | bms.py:212-220 | a merge holds only events of the destination and the source |
| Merge.MergeKeepsFirst | bms.py:212-220 | with a destination free of repeated timings, merging equals first-timing-wins over destination then source, and the result is free of repeated timings |
| BmsParser.NoteLane | bms.py:273-312 | only key channels route to a lane, and the lane is below 8 |
| BmsParser.NoteLaneOneToOne | bms.py:273-312 | no two channels fill the same lane |
| BmsParser.NoteLaneOnto | bms.py:273-312 | every one of the eight lanes has a channel |
| BmsParser.Bms.constructor | bms.py:108-121 | a new chart object has empty title, genre, tables and bars and tempo 0 |
| BmsParser.Bms.GetBarInfo | bms.py:128-137 | the scan returns the first bar with the number, or a new empty bar |
| BmsParser.Bms.SetBarInfo | bms.py:139-147 | the scan replaces the first bar with the number or appends, and changes no other field |
| BmsParser.Bms.ParseBarLineStep | bms.py:268-337 | one bar line fetches the bar, applies its channel's decoder and merge policy, stores the bar back, or stops with the decoder's error |
| BmsParser.Bms.ParseLineStep | bms.py:226-337 | one line does what the line specification says in the source's order of forms, or stops with its error |
| BmsParser.Bms.ParseAllLines | bms.py:226-337 | the line loop reaches the state the line specification gives for all lines in order, stopping at the first error with that error |
| BmsParser.Bms.SortEveryBar | bms.py:339-340 | every stored bar is replaced by its sorted form and nothing else changes |
| BmsParser.Bms.Parse | bms.py:225-340 | all lines in order, stopping at the first error, then every bar sorted |
| BmsProperties.BarLineReachesBarBranch | bms.py:230-268 | a line `re_bar` matches is none of the header or definition forms, so the bar branch is reached |
| BmsProperties.SetBarElements | bms.py:139-147 | the stored list holds only bars that were there and the bar stored |
| BmsProperties.BarValueDecodes | bms.py:274-276 | a matched bar value is never empty, so the decoders never answer None there |
| BmsProperties.ChannelEffectKeeps | bms.py:273-335 | a successful bar line always stores a bar with the same number, and only channel 02 changes its length |
| BmsProperties.ParseLineEffect | bms.py:226-337 | one line leaves the `#BPMxx` and `#STOPxx` tables unchanged, only appends to `#WAVxx`, touches the bar number it names (kept when present, appended otherwise), and changes no bar unless it is a bar line |
| BmsProperties.BarLineStored | bms.py:273-337 | a bar line stores the bar its channel made, with the line's bar number, and changes nothing else in the chart |
| BmsProperties.BarLineNumbers | bms.py:273-337 | a bar line keeps every definition table and touches its bar number |
| BmsProperties.NonBarLineEffect | bms.py:226-272 | a line that is not a bar line keeps the bars and the `#BPMxx` and `#STOPxx` tables, and at most appends to `#WAVxx` |
| BmsProperties.ParseLinesEffect | bms.py:226-337 | over all lines, the bar numbers are those named, touched in line order, so in order of first reference |
| BmsProperties.ChartBars | bms.py:225-340 | a parsed chart has empty `#BPMxx` and `#STOPxx` tables, and exactly one bar per named number, ordered by the line that first names it (no gap filling), each sorted |
| BmsProperties.ChannelStartsInBar | bms.py:273-335 | every channel stores a bar whose notes and tempo changes all lie at or after the bar's start |
| BmsProperties.ParseLinesStartsInBar | bms.py:226-337 | over all lines, no bar gains a note or tempo change before its start, nor a long-note item |
| BmsProperties.SortStartsInBar | bms.py:51-62 | sorting a bar keeps every note and tempo change at or after its start |
| BmsProperties.ChartStartsInBar | bms.py:225-340 | every bar of a parsed chart is sorted, has no note or tempo change before its start, and no long-note item |
| BmsProperties.BeatsStayZero | bms.py:333-335 | without a channel-02 line every bar keeps length 0 |
| BmsProperties.ParseLineKeepsBeats | bms.py:333-337 | a single line other than channel 02 keeps every bar length 0 |
| BmsProperties.NoteLineEffect | bms.py:273-312 | a key channel merges its notes into its own lane, first timing wins, leaving other lanes, lists and bars unchanged |
| BmsProperties.BackgroundLineEffect | bms.py:313-317 | channel 01 appends every decoded note to the background, duplicates included; the bar's other fields and every other bar stay as they were |
| BmsProperties.TempoLineEffect | bms.py:318-322 | channel 03 stores the bar with its tempo list merged with the decoded tempos, first timing wins, every other field and bar unchanged |
| BmsProperties.BeatLineEffect | bms.py:333-335 | channel 02 replaces the bar's length by `float(value)`, every other field and bar unchanged, and fails with ValueError when the value is not a number |
| BmsProperties.ExBpmLineFails | bms.py:323-327 | channel 08 naming any tempo fails with StopIteration, the table being empty |
| BmsProperties.StopLineFails | bms.py:328-332 | channel 09 naming any stop fails with StopIteration, the table being empty |
| BmsProperties.TempoDirective | bms.py:241-243 | every stripped line starting with `#BPM` is taken as the base-tempo header: the tempo is `float` of the text from position 5, or ValueError |
| BmsProperties.BareTempoFails | bms.py:241-243 | a bare `#BPM` line reads `float("")` and fails with ValueError |
| BmsProperties.BpmDefinitionShadowed | bms.py:241-251 | `#BPM01 120` is taken as the base-tempo header and fails with ValueError |
| BmsProperties.BaseTempoLine | bms.py:241-243 | `#BPM 150` sets the base tempo to 150 and nothing else |
| BmsProperties.BeatValueTruncated | bms.py:7 | `#00102:10.5` is read as bar 1, channel 02, value "10" |
| BmsJson.BarKeys | bms.py:80-95 | a bar object has thirteen distinct keys in the encoder's order, with "backgroud" and never "background" |
| BmsJson.BarFields | bms.py:80-95 | each key of a bar object finds the encoding of its own field |
| BmsJson.NoteRoundTrip | bms.py:74-75 | a note object reads back as the note |
| BmsJson.BpmNoteRoundTrip | bms.py:76-77 | a tempo change object reads back as the tempo change |
| BmsJson.StopNoteRoundTrip | bms.py:78-79 | a stop object reads back as the stop |
| BmsJson.ExBpmDefRoundTrip | bms.py:68-69 | a `#BPMxx` entry object reads back as the entry |
| BmsJson.WavDefRoundTrip | bms.py:70-71 | a `#WAVxx` entry object reads back as the entry |
| BmsJson.StopDefRoundTrip | bms.py:72-73 | a `#STOPxx` entry object reads back as the entry |
| BmsJson.DecodeEncodeBar | bms.py:80-95 | a bar object reads back as the bar with its long-note lanes emptied, the only part not written |
| BmsJson.ChartKeys | bms.py:96-105 | a chart object has the seven distinct keys in the encoder's order |
| BmsJson.DecodeEncodeChart | bms.py:66-106 | a chart object reads back as the chart, but for its bars' long-note lanes |
| ReplayInput.PatternModifyByOption | replay.py:24-54 | options 0 and 1 give the identity order, option 2 gives `pattern[0].modify` or fails when it is missing, and exactly the other options are refused |
| ReplayInput.GetPatternModify | replay.py:46-54 | options 0 and 1 give the identity order of the seven keys (mirror is not applied); a success needs option 0, 1 or 2; a failure is the missing pattern or the refused option |
| ReplayInput.NoIndexIsScratch | replay.py:172-182 | no keycode yields index 8, so `is_scratch` never holds |
| ReplayInput.GetKeyIndex | replay.py:172-179 | index 0 (the scratch lane) comes exactly from keycode 7 or -1, and no keycode gives index 8 |
| ReplayInput.IsScratch | replay.py:181-182 | the value it recognises, 8, is none of the eight lane indexes 0 to 7 |
| ReplayInput.KeyIndexInverse | replay.py:172-179 | index 0 comes exactly from keycodes 7 and -1, index 1 from a missing keycode or keycode 0, and any other index i from keycode i - 1 |
| ReplayInput.Lane | replay.py:212 | indexing the status tuple succeeds only with a lane below 8 |
| ReplayInput.KeycodeLanes | replay.py:172-212 | keycodes 0 to 6 reach keys 1 to 7, keycodes 7 and -1 and a missing keycode as stated, -9 to -2 wrap round, and exactly the keycodes below -9 or above 7 raise IndexError |
| Timing.BarSteps | replay.py:113-123 | a bar without tempo changes lengthens the window by its length; otherwise each change, in order, closes a window after the beats since the previous change |
| Timing.MakeWindow | replay.py:91-98 | the window the running state has open, ending after its beats at four beats a bar, or division by zero at tempo 0 |
| Timing.CloseWindow | replay.py:119-123 | one tempo change adds its span, closes the open window and opens the next at the change's bar, position and tempo a millisecond later |
| Timing.BarOf | replay.py:114-123 | a bar without tempo changes only lengthens the open window; otherwise its changes are applied in order |
| Timing.CalculateTiming | replay.py:83-126 | the nested loops return the window list of the specification, or its division by zero |
| Timing.TempoChanges | replay.py:117-123 | the inner loop over one bar's tempo changes applies that bar's steps |
| Timing.RunChained | replay.py:113-123 | the loop fails (by division by zero) exactly when a tempo in force is 0; otherwise every window closed opens where its change says and ends where its span says |
| Timing.TimingWindows | replay.py:83-126 | the windows exist exactly when the chart tempo and every change tempo are non-zero; there is one more window than changes, each opening at its change's bar, beat and tempo, one ms after the previous one ends, and spanning its beats |
| Timing.SingleWindow | replay.py:83-126 | a chart without tempo changes has one window from ms 0 covering the total length of all bars |
| Timing.RunWithoutChanges | replay.py:113-116 | bars without tempo changes only add their lengths to the open window |
| Timing.WindowIndex | replay.py:146-150 | the index is that of the first window covering the instant; NoMoreBar exactly when none covers it |
| Timing.GetTimingIndex | replay.py:146-150 | the scan returns the first covering window, or NoMoreBar |
| Timing.Normalise | replay.py:157-168 | the position ends inside its bar, every bar passed over fits whole, and the bars passed plus the position add up to the starting position |
| Timing.CalcTiming | replay.py:144-170 | the method with its `while True` loop returns what the specification does |
| Timing.CalcTimingResult | replay.py:144-170 | NoMoreBar exactly when no window covers the instant; otherwise the (bar, position) lies in the first covering window, inside its bar, and the bars from the window's start plus the position equal the window's position for the instant |
| ReplayConvert.SortBars | replay.py:300-301 | every converted bar is sorted in place, in list order |
| ReplayConvert.ScratchThresholdUnused | replay.py:222-226 | the step does not depend on the scratch threshold |
| ReplayConvert.PressEffect | replay.py:210-217 | a press on a held lane fails as a duplicate; otherwise it succeeds exactly when the instant maps to a bar, and then only that lane's status changes (pressed, at that time and bar) and no bar changes |
| ReplayConvert.ReleaseClearsLane | replay.py:222-298 | a successful release leaves its lane not pressed, at the release time, and every other lane as it was |
| ReplayConvert.TapEffect | replay.py:230-239 | a release within the threshold adds exactly one note, at the press position, to the press bar's lane, changes no other bar, and appends the press bar's number only when it was missing |
| ReplayConvert.AddNoteOnlyLane | replay.py:234 | adding a note changes only its lane |
| ReplayConvert.LongNoteSameBar | replay.py:248-257 | a hold inside one bar appends start, span open at both ends, and end to that bar only |
| ReplayConvert.UpdateBarEffect | replay.py:255-257 | get, change and set changes only the named bar, keeps numbers unique, and changes the number list exactly by touching the named number |
| ReplayConvert.LinkStepEffect | replay.py:271-282 | one pass for an inner bar appends its reference to the start bar, keeps numbers unique, and changes the number list exactly by touching the start bar and then the inner bar |
| ReplayConvert.LinksEffect | replay.py:269-282 | the passes for the inner bars append their references, in order, to the start bar only |
| ReplayConvert.BarRange | replay.py:269-270 | the numbers from lo to hi - 1, each once, in increasing order |
| ReplayConvert.LinksNumbers | replay.py:269-282 | the passes create every inner bar, drop no bar and keep numbers unique; once the start bar exists, the number list changes exactly by touching the inner bars in increasing order |
| ReplayConvert.SpanEffect | replay.py:269-294 | the span loop gives the start bar the inner references and the end bar the closing span and end marker, and changes nothing else |
| ReplayConvert.SpanNumbers | replay.py:269-294 | the span loop creates every bar up to the end bar, drops none and keeps numbers unique; once the start bar exists, the number list changes exactly by touching the bars after it up to the end bar, in increasing order |
| ReplayConvert.LongNoteAcrossBars | replay.py:258-294 | a hold over several bars gives the start bar start, open span and inner references, the end bar closing span and end, leaves other bars unchanged, and makes every bar in between exist |
| ReplayConvert.LongNoteBackwards | replay.py:258-270 | a release mapped to a bar before the press bar only marks the start bar |
| ReplayConvert.LongNoteBars | replay.py:241-294 | a long note sets its start bar first, then exactly the bars after it up to the end bar |
| ReplayConvert.LongNoteNumbers | replay.py:241-294 | any long note keeps bar numbers unique, drops no bar, and changes the number list exactly by touching its `LongNoteBars` in order |
| ReplayConvert.ReleaseNumbers | replay.py:222-298 | a release keeps bar numbers unique and changes the number list exactly by touching the bars it sets: the press bar for a tap, the long note's bars otherwise |
| ReplayConvert.KeyStepNumbers | replay.py:205-298 | every keylog entry keeps bar numbers unique, drops no bar, and changes the number list exactly by touching the bars it sets (none for a press) |
| ReplayConvert.KeysRunNumbers | replay.py:205-298 | after the whole keylog no bar number occurs twice, and the number list is the entries' touched bars listed once each in first-touch order |
| ReplayConvert.KeysRunErr | replay.py:205-213 | a failing entry ends the conversion with its own error |
| ReplayConvert.ConvertedBars | replay.py:128-303 | a converted replay has one bar per number, each sorted; its bars are exactly the bars the keylog's entries set, none filled in between, listed in the order each was first set |
| ReplayConvert.SortBarsKeep | replay.py:300-301 | sorting every bar keeps the bar numbers, their order and their uniqueness, and leaves every bar sorted |
| ReplayConvert.GetBarinfo | replay.py:184-193 | the scan returns the first bar with the number, or a new one |
| ReplayConvert.SetBarinfo | replay.py:195-203 | the scan replaces the first bar with the number, or appends |
| ReplayConvert.CalcTimingOf | replay.py:144-170 | `calc_timing` on an integer instant is the chart's position mapping |
| ReplayConvert.LayOutSpan | replay.py:269-294 | the `while` loop over the bars after the start bar builds the span the specification describes |
| ReplayConvert.LinkInnerBar | replay.py:271-282 | one pass for an inner bar |
| ReplayConvert.CloseLastBar | replay.py:284-294 | the pass for the end bar |
| ReplayConvert.ReleaseKey | replay.py:222-298 | the release branch: a note within the threshold, a long note beyond it |
| ReplayConvert.ConvertKey | replay.py:205-298 | the loop body on one keylog entry |
| ReplayConvert.BeatConvertedReplay.constructor | replay.py:72-75 | a new object has no windows, no bars and no lane order |
| ReplayConvert.BeatConvertedReplay.Convert | replay.py:128-303 | `convert` sets `bars` to the sorted result or leaves it on an error, and never sets the windows or the lane order |
| LevelTimeline.SortTimingsIsSortBy | bmslevel.py:42 | sorting a lane's timings is the stable `list.sort` |
| LevelTimeline.LaneEventsSorted | bmslevel.py:38-42 | a lane's events are its notes and long-note starts, as a sorted permutation |
| LevelTimeline.AppendInstants | bmslevel.py:43-45 | the inner loop appends one instant per event, each at the clock plus the event's distance in ms |
| LevelTimeline.PlainBarOf | bmslevel.py:36-47 | a bar without tempo changes adds every lane's instants and advances the clock by the whole bar |
| LevelTimeline.ChangeStepOf | bmslevel.py:50-65 | one tempo change adds the instants before it, advances the clock to it and adopts its tempo |
| LevelTimeline.ChangesOf | bmslevel.py:49-65 | the loop over a bar's tempo changes applies them in order |
| LevelTimeline.TrailingLaneOf | bmslevel.py:68-79 | one lane of the tail loop: an empty lane changes nothing, a zero tempo fails with division by zero, otherwise the lane's notes from the current beat are placed and the clock moves by the tail |
| LevelTimeline.TrailingOf | bmslevel.py:67-79 | the loop after the last change adds each non-empty lane's remaining instants and the bar's tail |
| LevelTimeline.BarStepOf | bmslevel.py:35-79 | one pass of the bar loop |
| LevelTimeline.BuildTimeline | bmslevel.py:33-79 | the constructor's loops compute the timeline of the specification, or its division by zero |
| LevelTimeline.ChangesKeepTempo | bmslevel.py:49-65 | with non-zero change tempos the changes succeed and leave a non-zero tempo |
| LevelTimeline.TrailingKeeps | bmslevel.py:67-79 | the tail loop keeps the beat and tempo, and never fails at a non-zero tempo |
| LevelTimeline.BarStepKeepsTempo | bmslevel.py:35-79 | a bar with non-zero tempos succeeds and keeps a non-zero tempo |
| LevelTimeline.BarsRunOk | bmslevel.py:35-79 | a chart with non-zero tempos never divides by zero |
| LevelTimeline.ZeroTempoFirstBar | bmslevel.py:44-46 | at tempo 0 any bar divides by zero |
| LevelTimeline.TimelineFailure | bmslevel.py:33-79 | the only failure is a division by zero; with non-zero change tempos the timeline exists exactly when the chart tempo is non-zero or there are no bars |
| LevelTimeline.SplitCount | bmslevel.py:57-74 | the events before a change plus those from it on are those from the segment start on |
| LevelTimeline.PlainLanesCount | bmslevel.py:37-45 | a plain bar adds exactly its events to each lane |
| LevelTimeline.SegmentLanesCount | bmslevel.py:51-61 | a segment adds exactly the events in its range to each lane |
| LevelTimeline.ChangeStepCount | bmslevel.py:50-65 | a change adds each lane's events before it |
| LevelTimeline.ChangesCount | bmslevel.py:49-65 | sorted changes add each lane's events before the last change |
| LevelTimeline.TrailingLaneEffect | bmslevel.py:67-79 | one lane of the tail loop adds its remaining events and one tail length when non-empty |
| LevelTimeline.TrailingCount | bmslevel.py:67-79 | the tail loop adds each lane's events from the last change on |
| LevelTimeline.BarStepCount | bmslevel.py:35-79 | a bar with ordered tempo changes and events adds each of its events exactly once |
| LevelTimeline.BarsRunCount | bmslevel.py:35-79 | the timeline so far holds one instant per event of the bars so far |
| LevelTimeline.TimelineCounts | bmslevel.py:33-79 | every lane of the timeline has exactly one instant per note and long-note start of that lane |
| LevelTimeline.TrailingRepeats | bmslevel.py:67-79 | the tail loop never fails at a non-zero tempo and advances the clock by the bar's tail added once per non-empty lane |
| LevelTimeline.RepeatIsProduct | bmslevel.py:79 | adding the tail k times is k times the tail |
| LevelTimeline.PlainBarClock | bmslevel.py:36-47 | a plain bar advances the clock by ms-per-beat times its length times 4 and keeps the tempo |
| LevelDensity.ScratchGaps | bmslevel.py:93-111 | the scratch loop compares even inputs with even and odd with odd, gives no gap after an instant 0, and fails its assertion on a repeated instant |
| LevelDensity.KeyGaps | bmslevel.py:113-125 | a key lane's loop compares consecutive inputs, with the same treatment of 0 and of repeats |
| LevelDensity.GapsNonZero | bmslevel.py:99-125 | every gap list has one entry per input and never a gap of 0 |
| LevelDensity.SumInfluence | bmslevel.py:130-136 | the summing loop adds 1 per missing gap and (200/gap)² per gap over all lanes |
| LevelDensity.CalcOf | bmslevel.py:89-137 | `calc` up to the square root: the failed assertion, the division by zero for no key input, or the influence and key-input count |
| LevelDensity.LevelOf | bmslevel.py:86-137 | `CalcDensity(bms).calc()` is the timeline followed by the score |
| LevelDensity.ZeroInstantExample | bmslevel.py:118-125 | a lane at 0, 200 and 600 ms gives no gap, no gap, and 400 |
| LevelDensity.IncreasingGaps | bmslevel.py:93-125 | strictly increasing positive instants never fail, and give no gap for the first inputs and the differences after |
| LevelDensity.WeightBounds | bmslevel.py:133-136 | every weight is positive, and a gap weighs at most 1 exactly when it is at least 200 ms either way |
| LevelDensity.InfluenceBounds | bmslevel.py:130-136 | a lane's influence is non-negative, positive when it has inputs, and at most its input count when all gaps are at least 200 ms |
| LevelDensity.LanesInfluenceBounds | bmslevel.py:130-136 | the same bounds over all lanes |
| LevelDensity.NumeratorBounds | bmslevel.py:89-137 | a computed score has a positive numerator, at most the number of inputs when all gaps are at least 200 ms |
| LevelDensity.ScratchNotCounted | bmslevel.py:113-137 | scratch inputs do not count toward `total_notes`, and a chart with only scratch inputs fails, by the assertion or by division by zero |
| LevelDensity.KeyNotesAreEvents | bmslevel.py:115-117 | `total_notes` counts the key lanes' instants |
| LevelDensity.LevelCountsKeys | bmslevel.py:86-117 | for ordered bars, `total_notes` is the number of notes and long-note starts on lanes 1 to 7 |
| LevelDensity.StartsInBarOrdered | bmslevel.py:33-42 | a sorted bar with nothing before its start and no long-note item meets the ordering the note count needs |
| LevelDensity.ParsedBarsOrdered | bmslevel.py:21-42 | every bar of a chart the parser produces meets that ordering |
| LevelDensity.ParsedLevelCountsKeys | bmslevel.py:86-117 | for any chart the parser produces, with its header tempo, `total_notes` is the number of notes on lanes 1 to 7 |

## Left out

- Opening and reading the chart file, the gzip-compressed replay file and JSON documents; `output_json`'s writing of text. The chart lines and the decoded replay are parameters.
- Floating point: fractions and floats are exact reals, so rounding in `60000 / bpm` and `Fraction(float)` is not modelled.
- LevelDensity.CalcOf: stops before the final `key_influence /= sqrt(total_notes)`; it returns the numerator and `total_notes`, and the division by zero for `total_notes == 0` is kept.
- Text.UnsignedDecimal: `float(...)` is modelled for plain decimal numerals in ASCII digits only; exponents, `inf`, `nan`, `_` digit separators and non-ASCII decimal digits (`#BPM ١٥٠`) are refused, where Python accepts them.
- Text.ParseInt: `int(...)` is modelled for ASCII digits only; `_` digit separators (`#STOP01 1_0`) and non-ASCII decimal digits are refused, where Python accepts them, so such a `#STOPxx` line fails with ValueError in the model, where the source reads it and stores nothing.
- The `#BPMxx` definition branch (bms.py:245-251) cannot be reached after the `#BPM` header test, so it is not modelled.
- A keylog entry without a `time` key is not modelled (the model's entries always have one). The `pressed` value is a boolean telling whether it is exactly `True`.
- The `key_index is None` test (replay.py:207) can never hold and is not modelled.
- `InputTimeline.value` and `InputTimeline.beats` (bmslevel.py:22-31) are never read, so they are not modelled. `InputTimeline` is modelled as the `key_ms` value `BuildTimeline` computes. `get_lane_timeline` is plain indexing.
- `BMSLevelCalculator`, drawing (`bmsdrawer`, `ReplayNoteDrawer`, the replay image), the song database and the exception classes' messages are not part of this model.
- `deepcopy` in `InputTimeline` only protects the chart from the sort; the model's values are never shared.
- Aliasing of bar objects is not modelled: every fetched bar is written back at once, and the bar object appended by replay.py:279 is represented by its number.
- `TimeBar` (replay.py:56-61) is not used by the modelled code.
