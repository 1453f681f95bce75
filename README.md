# StEfficiencyAssessor in Dafny

StEfficiencyAssessor is a STAR analysis maker that measures track-reconstruction
efficiency. For each reconstructed MuDst event it finds the matching entry of
a chain of embedding ("miniMC") truth events. It then applies event-level cuts
and fills histograms from the truth tracks, the truth-to-reconstruction
matched pairs and the reconstructed primary tracks. The repository holds two
makers:
- the current one under `StRoot/`, which fills staged diagnostics per centrality;
- an older "differential" one, which fills a lumi x centrality x vz x pt grid of
  histograms.

This project models the logic of both makers that does not depend on the
framework:

- `axis.dfy` (module `Axis`): the uniform binning axis `axisDef` (`width`,
  `valid`, `bin`) shared by both headers, and the `CheckAxes` test. `bin` is a
  recursive specification (`Bin`) together with the loop that computes it
  (`FindBin`).
- `inputs.dfy` (module `Inputs`): the records the makers read (`StMuEvent`,
  `StMuTrack`, `StMiniMcEvent`, `StTinyMcTrack`, `StMiniMcPair`), C++
  `unsigned`/`int` conversions, the geant-id filter, and `count_mc`.
- `alignment.dfy` (module `Alignment`): `LoadEvent`, the search for the truth
  entry with the reconstructed event's (eventId, runId). The search uses a
  persistent, wrapping cursor. Both makers contain the same search. It is
  specified by the function `Search`/`Align` and implemented by the class
  `EventAligner`.
- `event_cuts.dfy` (module `EventSelection`): `StEventCuts`, the event-cut
  evaluator with its counters, kept as a class. Its result and new counters
  are specified by `Accepts` and `StatsAfter`.
- `run_mask.dfy` (module `RunMaskText`): the text parsing of `MaskRuns(file)`,
  i.e. lines, `#` comments, comma-separated fields and C `atoi`.
- `histograms.dfy` (module `Histograms`): the histograms of the current maker
  and the counting of fills.
- `assessor.dfy` (module `Assessor`): the current maker `EfficiencyAssessor`.
  The track loops of `Make` are methods proved against the functions
  `McFills`, `PairsFills`, `DataFills` and `EventFills`.
- `differential.dfy` (module `Differential`): the older maker
  `DifferentialAssessor`. This covers its grid allocation in `InitOutput`, its
  `Make` with the grid coordinates, and the grid-bounds property.

Every histogram is an append-only log of `Fill` records: the histogram, the
filled coordinates and, for weighted histograms, the weight. ROOT's own binning
of those coordinates is outside the model. Doubles are modelled as `real`.

The framework is replaced by parameters:
- The centrality definitions (`centrality9`, `getCentralityBin9`,
  `centrality16`) are function parameters.
- The absolute inverse Jacobian weight of the DCA histograms is a function
  parameter.
- The MuDst file name seen by `InitInput` is an `Option<string>`, and `None`
  stands for the missing maker.
- The contents of a run-mask file are an `Option<string>`, and `None` stands
  for a file that cannot be read.
- The transverse radius of the vertex is an input field.

## Model

| member | source | states |
|---|---|---|
| Axis.Width | StRoot/StEfficiencyAssessor/StEfficiencyAssessor.hh:35 | the bin width times the bin count is `high - low` |
| Axis.ValidIff | StRoot/StEfficiencyAssessor/StEfficiencyAssessor.hh:37 | `valid()` holds iff there is at least one bin and `low < high` |
| Axis.BinFrom | StRoot/StEfficiencyAssessor/StEfficiencyAssessor.hh:40-46 | the search from index i returns the first index at or after i whose half-open interval holds the value, or -1 when none does |
| Axis.Bin | StRoot/StEfficiencyAssessor/StEfficiencyAssessor.hh:39-47 | `bin(v)` is -1 or in [0, nBins); a result i satisfies `low + i*w < v <= low + (i+1)*w` and is the first such index; -1 means no bin holds v |
| Axis.FindBin | old_differential_maker/StEfficiencyAssessor/StEfficiencyAssessor.hh:39-47 | the loop with early return computes `Bin` |
| Axis.DefaultAxisValid | StRoot/StEfficiencyAssessor/StEfficiencyAssessor.hh:27 | the default-constructed axis is (1, 0, 1) and is valid |
| Axis.EdgeMonotone | StRoot/StEfficiencyAssessor/StEfficiencyAssessor.hh:41-42 | on a valid axis the bin edges grow with the index |
| Axis.BinAtOrBelowLow | StRoot/StEfficiencyAssessor/StEfficiencyAssessor.hh:41-46 | on a valid axis any value `<= low`, `low` included, is in no bin |
| Axis.BinAboveHigh | old_differential_maker/StEfficiencyAssessor/StEfficiencyAssessor.hh:41-46 | on a valid axis any value above `low + nBins*w` is in no bin |
| Axis.BinUnique | StRoot/StEfficiencyAssessor/StEfficiencyAssessor.hh:41-42 | on a valid axis at most one index passes the interval test |
| Axis.BinCovers | StRoot/StEfficiencyAssessor/StEfficiencyAssessor.hh:39-47 | on a valid axis every value in (low, high] gets a bin, and it is the only index passing the test |
| Axis.NonPositiveWidthBinsNothing | StRoot/StEfficiencyAssessor/StEfficiencyAssessor.hh:39-47 | an axis with bins of non-positive width puts no value in any bin |
| Axis.VzAxisExamples | StRoot/StEfficiencyAssessor/StEfficiencyAssessor.cxx:54 | on the vertex axis (5, -30, 30): -30 has no bin, -29.9 and -18 are in bin 0, 6 in bin 2, 30 in bin 4, and 30.1 has no bin |
| Axis.CheckAxesIgnoresVz | StRoot/StEfficiencyAssessor/StEfficiencyAssessor.cxx:102-105 | `CheckAxes` does not depend on the vz axis, even one with no bins |
| Inputs.ToUInt32 | StRoot/StEfficiencyAssessor/StEventCuts.cxx:206-208 | an `int` converted to `UInt_t` is congruent to it mod 2^32 and equal to it when already in range |
| Inputs.ToInt32 | old_differential_maker/StEfficiencyAssessor/StEfficiencyAssessor.hh:75-76 | an `unsigned` stored in an `int` lands in the `int` range and converts back to the same `unsigned` |
| Inputs.CountMc | old_differential_maker/StEfficiencyAssessor/StEfficiencyAssessor.cxx:140-149 | `count_mc` never exceeds the number of truth tracks |
| Alignment.Advance | StRoot/StEfficiencyAssessor/StEfficiencyAssessor.cxx:384-386 | one advance of the cursor is `(current + 1) mod N` and stays in [0, N) |
| Alignment.StepValue | StRoot/StEfficiencyAssessor/StEfficiencyAssessor.cxx:384-386 | k advances from c, with k <= N, land on `c + k` or `c + k - N` |
| Alignment.SearchFindsFirstMatch | StRoot/StEfficiencyAssessor/StEfficiencyAssessor.cxx:382-394 | a successful search stops on an entry with the target identity, after 1 to tries+1 advances, and no earlier advance matched |
| Alignment.SearchFailureCursor | StRoot/StEfficiencyAssessor/StEfficiencyAssessor.cxx:382-399 | a failed search has made exactly tries+1 advances |
| Alignment.SearchReaches | StRoot/StEfficiencyAssessor/StEfficiencyAssessor.cxx:382-394 | an entry reachable within tries+1 advances is found |
| Alignment.AlignSound | StRoot/StEfficiencyAssessor/StEfficiencyAssessor.cxx:378-394 | success means that the loaded entry or the entry under the cursor has the target identity |
| Alignment.AlignComplete | StRoot/StEfficiencyAssessor/StEfficiencyAssessor.cxx:376-394 | a target present anywhere in the chain is always found |
| Alignment.AlignFailure | StRoot/StEfficiencyAssessor/StEfficiencyAssessor.cxx:376-399 | failure means that no entry of the chain has the target identity, and the cursor ends one step past where it started |
| Alignment.AlignCursorInRange | old_differential_maker/StEfficiencyAssessor/StEfficiencyAssessor.cxx:456-468 | the cursor always stays in [0, N) |
| Alignment.EventAligner.LoadEvent | StRoot/StEfficiencyAssessor/StEfficiencyAssessor.cxx:371-399 | the loop returns what `Align` specifies and leaves the cursor where it says; the result is true iff some entry of the chain has the target identity, and then the loaded entry has it; the loaded entry is always the one under the cursor (`Valid`); the fast path leaves cursor and entry unchanged |
| RunMaskText.Split | StRoot/StEfficiencyAssessor/StEventCuts.cxx:203-205 | splitting gives at least one field, and no field contains the separator |
| RunMaskText.JoinSplit | StRoot/StEfficiencyAssessor/StEventCuts.cxx:203-205 | joining the fields with the separator gives back the line |
| RunMaskText.SplitJoin | StRoot/StEfficiencyAssessor/StEventCuts.cxx:203-205 | splitting a join of separator-free fields gives back the fields |
| RunMaskText.LeadingDigits | StRoot/StEfficiencyAssessor/StEventCuts.cxx:206 | `atoi` reads the longest prefix of digits |
| RunMaskText.SkipSpaceSuffix | StRoot/StEfficiencyAssessor/StEventCuts.cxx:206 | `atoi` skips exactly the leading white space |
| RunMaskText.Decimal | StRoot/StEfficiencyAssessor/StEventCuts.cxx:206 | the decimal text of n is digits whose value is n |
| RunMaskText.AtoiDecimal | StRoot/StEfficiencyAssessor/StEventCuts.cxx:206 | `atoi` reads back a decimal number, with or without a minus sign, whatever non-digit follows |
| RunMaskText.AtoiNoDigits | StRoot/StEfficiencyAssessor/StEventCuts.cxx:206-207 | a field with no digit reads as 0, so it is ignored |
| RunMaskText.FieldIdsMember | StRoot/StEfficiencyAssessor/StEventCuts.cxx:203-210 | an id comes from the fields of a line iff some field's `atoi` value is non-zero and converts to that id |
| RunMaskText.LinesIdsMember | StRoot/StEfficiencyAssessor/StEventCuts.cxx:198-212 | the ids of the file are the union of the ids of its lines |
| RunMaskText.MaskedIdsMember | StRoot/StEfficiencyAssessor/StEventCuts.cxx:197-212 | an id is masked iff some non-empty line not starting with `#` has a field whose non-zero `atoi` value converts to it |
| RunMaskText.NegativeFieldWraps | StRoot/StEfficiencyAssessor/StEventCuts.cxx:206-208 | a field `-n` masks the run 2^32 - n |
| EventSelection.BumpAbsent | StRoot/StEfficiencyAssessor/StEventCuts.cxx:102-108 | the counter of each configured trigger grows by one exactly when the event lacks that trigger |
| EventSelection.StatsAfterUnmasked | StRoot/StEfficiencyAssessor/StEventCuts.cxx:42-51 | for an unmasked event, the event count grows by one and each counter grows by one iff its check is enabled and fails |
| EventSelection.StatsAfterConsistent | StRoot/StEfficiencyAssessor/StEventCuts.cxx:33-54 | the per-trigger counters keep the length of the trigger list, and the counters stay consistent: failed events never exceed events, each per-check counter never exceeds the failed events, each per-trigger counter never exceeds the events, and the failed events never exceed the sum of the per-check counters |
| EventSelection.StatsAfterCounts | StRoot/StEfficiencyAssessor/StEventCuts.cxx:35-51 | a masked event is rejected and changes no counter; for an unmasked one `mEventsFailed` grows by one iff the event is rejected |
| EventSelection.NoShortCircuit | StRoot/StEfficiencyAssessor/StEventCuts.cxx:44-49 | every enabled failing check counts its failure, whatever failed before it; with no trigger configured the per-trigger counters stay |
| EventSelection.NoTriggerBumpsAll | StRoot/StEfficiencyAssessor/StEventCuts.cxx:101-111 | an event carrying no configured trigger bumps every per-trigger counter |
| EventSelection.FreshAcceptsAll | StRoot/StEfficiencyAssessor/StEventCuts.hh:28-30 | a fresh evaluator accepts every event |
| EventSelection.AcceptedCarriesTrigger | StRoot/StEfficiencyAssessor/StEventCuts.hh:44-46 | once triggers are configured, an accepted event carries one of them |
| EventSelection.InClosedRangeIff | StRoot/StEfficiencyAssessor/StEventCuts.cxx:58-59 | a range check passes iff `min <= v <= max` |
| EventSelection.Zeros | StRoot/StEfficiencyAssessor/StEventCuts.cxx:183 | the counters appended for new triggers are zero |
| EventSelection.AddNewKeeps | StRoot/StEfficiencyAssessor/StEventCuts.cxx:169-175 | adding a trigger keeps the list duplicate-free, keeps its old prefix, adds exactly that trigger, and grows the list only when it is new |
| EventSelection.AddAllKeeps | StRoot/StEfficiencyAssessor/StEventCuts.cxx:177-186 | adding a list of triggers keeps the list duplicate-free and its old prefix, and the result holds exactly the old and the added triggers |
| EventSelection.EventCuts.constructor | StRoot/StEfficiencyAssessor/StEventCuts.cxx:17-27 | all checks off, all bounds and counters zero, no triggers and no masked runs |
| EventSelection.EventCuts.AcceptEvent | StRoot/StEfficiencyAssessor/StEventCuts.cxx:33-54 | returns `Accepts` and leaves the counters at `StatsAfter`; the counters stay consistent (`StatsConsistent` in `Valid`) |
| EventSelection.EventCuts.ApplyChecks | StRoot/StEfficiencyAssessor/StEventCuts.cxx:42-53 | runs every enabled check without short-circuit and accepts iff all of them pass |
| EventSelection.EventCuts.StageVertex | StRoot/StEfficiencyAssessor/StEventCuts.cxx:44-47 | the four vertex checks run in turn; each enabled failing one bumps its own counter |
| EventSelection.EventCuts.AcceptVx | StRoot/StEfficiencyAssessor/StEventCuts.cxx:56-65 | passes iff vx is in the closed range; a failure bumps only its own counter |
| EventSelection.EventCuts.AcceptVy | StRoot/StEfficiencyAssessor/StEventCuts.cxx:67-76 | the same for vy |
| EventSelection.EventCuts.AcceptVz | StRoot/StEfficiencyAssessor/StEventCuts.cxx:78-87 | the same for vz |
| EventSelection.EventCuts.AcceptVr | StRoot/StEfficiencyAssessor/StEventCuts.cxx:89-99 | the same for the transverse vertex radius |
| EventSelection.EventCuts.AcceptRefMult | StRoot/StEfficiencyAssessor/StEventCuts.cxx:113-122 | the same for refMult, or for gRefMult when that is selected |
| EventSelection.EventCuts.AcceptTrigger | StRoot/StEfficiencyAssessor/StEventCuts.cxx:101-111 | passes iff the event carries a configured trigger; each absent trigger bumps its counter, and the total counter is bumped iff none is present |
| EventSelection.EventCuts.AcceptRunId | StRoot/StEfficiencyAssessor/StEventCuts.cxx:124-133 | passes iff the run is not masked |
| EventSelection.EventCuts.SetVxRange | StRoot/StEfficiencyAssessor/StEventCuts.cxx:135-139 | enables the vx check and stores the bounds, which the getters return |
| EventSelection.EventCuts.SetVyRange | StRoot/StEfficiencyAssessor/StEventCuts.cxx:141-145 | the same for vy |
| EventSelection.EventCuts.SetVzRange | StRoot/StEfficiencyAssessor/StEventCuts.cxx:147-151 | the same for vz |
| EventSelection.EventCuts.SetVrRange | StRoot/StEfficiencyAssessor/StEventCuts.cxx:153-157 | the same for vr |
| EventSelection.EventCuts.SetRefMultRange | StRoot/StEfficiencyAssessor/StEventCuts.cxx:159-163 | the same for refMult |
| EventSelection.EventCuts.UsegRefMult | StRoot/StEfficiencyAssessor/StEventCuts.cxx:165-167 | selects gRefMult and changes nothing else |
| EventSelection.EventCuts.AddTrigger | StRoot/StEfficiencyAssessor/StEventCuts.cxx:169-175 | appends a new trigger with a zero counter and enables the check; a known trigger changes nothing |
| EventSelection.EventCuts.AddTriggers | StRoot/StEfficiencyAssessor/StEventCuts.cxx:177-186 | the loop adds each new trigger once, with a zero counter for each |
| EventSelection.EventCuts.MaskRun | StRoot/StEfficiencyAssessor/StEventCuts.cxx:217-219 | inserts the run, so the mask only grows |
| EventSelection.EventCuts.MaskRunsFile | StRoot/StEfficiencyAssessor/StEventCuts.cxx:188-215 | an unreadable file returns false and masks nothing; otherwise every id of `MaskedIds` is masked and true is returned |
| EventSelection.EventCuts.MaskLine | StRoot/StEfficiencyAssessor/StEventCuts.cxx:199-211 | one line masks exactly its ids |
| Histograms.CountAppend | StRoot/StEfficiencyAssessor/StEfficiencyAssessor.cxx:146-228 | the fills of a histogram in two consecutive stretches of the log add up |
| Histograms.CountFirst | StRoot/StEfficiencyAssessor/StEfficiencyAssessor.cxx:193-201 | a block whose first fill is of histogram h and whose other fills are not is one fill of h |
| Assessor.DefaultAxesValid | StRoot/StEfficiencyAssessor/StEfficiencyAssessor.cxx:51-58 | the default axes pass `CheckAxes` |
| Assessor.CountPairs | StRoot/StEfficiencyAssessor/StEfficiencyAssessor.cxx:167-193 | `count_pair` never exceeds the number of matched pairs |
| Assessor.MakeGates | StRoot/StEfficiencyAssessor/StEfficiencyAssessor.cxx:113-144 | `Make` fills something iff the truth search succeeds, the event cuts accept, a centrality is available, the centrality is in [0, 8] and `|vz| <= 30`; it returns `kStErr` iff the search fails and `kStFatal` iff no centrality definition exists |
| Assessor.McTrackCounts | StRoot/StEfficiencyAssessor/StEfficiencyAssessor.cxx:151-160 | a truth track fills `mc_tracks_` once iff it passes the geant filter and is primary, and never the summary |
| Assessor.McFillsCount | StRoot/StEfficiencyAssessor/StEfficiencyAssessor.cxx:146-161 | the truth loop fills `mc_tracks_` exactly `count_mc` times, and never the summary |
| Assessor.PairBlockHists | StRoot/StEfficiencyAssessor/StEfficiencyAssessor.cxx:175-201 | the three blocks of a pair fill the pre-cut histograms, the scale histogram and the post-cut histograms, in source order |
| Assessor.PairAfterScaleCounts | StRoot/StEfficiencyAssessor/StEfficiencyAssessor.cxx:190-201 | past the scale fill, a pair fills `reco_tracks_` iff it passes the DCA and fit-point cut |
| Assessor.PairAfterPreCounts | StRoot/StEfficiencyAssessor/StEfficiencyAssessor.cxx:182-201 | past the pre-cut fills, a pair makes the scale fill iff it passes the eta and fit-fraction cuts, and fills `reco_tracks_` iff it passes all cuts |
| Assessor.PairStages | StRoot/StEfficiencyAssessor/StEfficiencyAssessor.cxx:168-201 | a pair makes the pre-cut fills iff it passes the geant filter and is primary, the scale fill iff it also passes eta and fit fraction, and the post-cut fills iff it is counted |
| Assessor.PairOrder | StRoot/StEfficiencyAssessor/StEfficiencyAssessor.cxx:175-201 | a counted pair makes 15 fills: six pre-cut, then the scale fill, then eight post-cut |
| Assessor.PairsFillsCount | StRoot/StEfficiencyAssessor/StEfficiencyAssessor.cxx:167-202 | the pair loop fills `reco_tracks_` exactly `count_pair` times |
| Assessor.DataBlockHists | StRoot/StEfficiencyAssessor/StEfficiencyAssessor.cxx:216-227 | the scale fill and the post-cut fills of a data track fill the histograms the source names, in order |
| Assessor.DataStages | StRoot/StEfficiencyAssessor/StEfficiencyAssessor.cxx:205-228 | a data track makes the scale fill iff it passes flag, fit points, fit fraction (no +1 in the numerator) and eta, and the post-cut fills iff it also passes DCA; the scale fill comes first |
| Assessor.DataFillsNoSummary | StRoot/StEfficiencyAssessor/StEfficiencyAssessor.cxx:205-228 | the data loop never fills the summary histogram |
| Assessor.SummaryFilledOnce | StRoot/StEfficiencyAssessor/StEfficiencyAssessor.cxx:203 | an accepted event fills `mc_reco_tracks_` exactly once, with (centrality, `count_mc`, `count_pair`) |
| Assessor.EfficiencyAssessor.constructor | StRoot/StEfficiencyAssessor/StEfficiencyAssessor.cxx:19-37 | loads the chain at entry 0 and installs the default axes and cuts (20 fit points, fit fraction 0.52, DCA 3) |
| Assessor.EfficiencyAssessor.SetDefaultAxes | StRoot/StEfficiencyAssessor/StEfficiencyAssessor.cxx:51-58 | installs the default axes, which pass `CheckAxes` |
| Assessor.EfficiencyAssessor.SetLuminosityAxis | StRoot/StEfficiencyAssessor/StEfficiencyAssessor.cxx:60-62 | stores the axis (n, low, high) |
| Assessor.EfficiencyAssessor.SetCentralityAxis | StRoot/StEfficiencyAssessor/StEfficiencyAssessor.cxx:64-66 | stores the axis |
| Assessor.EfficiencyAssessor.SetVzAxis | StRoot/StEfficiencyAssessor/StEfficiencyAssessor.cxx:68-70 | stores the axis |
| Assessor.EfficiencyAssessor.SetPtAxis | StRoot/StEfficiencyAssessor/StEfficiencyAssessor.cxx:72-74 | stores the axis |
| Assessor.EfficiencyAssessor.SetEtaAxis | StRoot/StEfficiencyAssessor/StEfficiencyAssessor.cxx:76-78 | stores the axis |
| Assessor.EfficiencyAssessor.SetPhiAxis | StRoot/StEfficiencyAssessor/StEfficiencyAssessor.cxx:80-82 | stores the axis |
| Assessor.EfficiencyAssessor.SetDCAMax | StRoot/StEfficiencyAssessor/StEfficiencyAssessor.hh:72-73 | the getter returns the value set |
| Assessor.EfficiencyAssessor.SetMinFitPoints | StRoot/StEfficiencyAssessor/StEfficiencyAssessor.hh:75-76 | stores the `unsigned` as an `int`, and the getter returns the value set |
| Assessor.EfficiencyAssessor.SetMinFitFrac | StRoot/StEfficiencyAssessor/StEfficiencyAssessor.hh:78-79 | the getter returns the value set |
| Assessor.EfficiencyAssessor.AddGeantId | StRoot/StEfficiencyAssessor/StEfficiencyAssessor.hh:81 | inserts the id, so the filter set only grows |
| Assessor.EfficiencyAssessor.InitInput | StRoot/StEfficiencyAssessor/StEfficiencyAssessor.cxx:284-307 | a missing maker or an unrecognised library is fatal; SL17d/SL18f/SL18h select the P18ih definition, and otherwise SL16d selects P16id |
| Assessor.EfficiencyAssessor.InitOutput | StRoot/StEfficiencyAssessor/StEfficiencyAssessor.cxx:309-357 | succeeds iff `CheckAxes` holds, and then books every histogram afresh |
| Assessor.EfficiencyAssessor.Init | StRoot/StEfficiencyAssessor/StEfficiencyAssessor.cxx:43-49 | succeeds iff both `InitInput` and `InitOutput` succeed; any failure is fatal |
| Assessor.EfficiencyAssessor.FillMc | StRoot/StEfficiencyAssessor/StEfficiencyAssessor.cxx:146-161 | the truth loop appends `McFills` and returns `count_mc` |
| Assessor.EfficiencyAssessor.FillPairs | StRoot/StEfficiencyAssessor/StEfficiencyAssessor.cxx:164-202 | the pair loop appends `PairsFills` and returns `count_pair` |
| Assessor.EfficiencyAssessor.FillPair | StRoot/StEfficiencyAssessor/StEfficiencyAssessor.cxx:169-201 | one pass of the pair loop body appends `PairFills` and reports whether the pair is counted |
| Assessor.EfficiencyAssessor.FillData | StRoot/StEfficiencyAssessor/StEfficiencyAssessor.cxx:205-228 | the primary-track loop appends `DataFills` |
| Assessor.EfficiencyAssessor.FillDataTrack | StRoot/StEfficiencyAssessor/StEfficiencyAssessor.cxx:206-227 | one pass of the primary-track loop body appends `DataTrackFills` |
| Assessor.EfficiencyAssessor.ProcessEvent | StRoot/StEfficiencyAssessor/StEfficiencyAssessor.cxx:141-228 | an event that passed the gates appends `EventFills` |
| Assessor.EfficiencyAssessor.Make | StRoot/StEfficiencyAssessor/StEfficiencyAssessor.cxx:107-232 | aligns the truth chain as `Align` says; if the event is found, the cut counters advance as `StatsAfter` says; status and fills are those of `MakeOutcome` |
| Differential.CountPairs | old_differential_maker/StEfficiencyAssessor/StEfficiencyAssessor.cxx:153-186 | `count_pair` never exceeds the number of matched pairs |
| Differential.CellsInShapeAppend | old_differential_maker/StEfficiencyAssessor/StEfficiencyAssessor.cxx:155-223 | in-range grid fills stay in range when logs are concatenated |
| Differential.PairStages | old_differential_maker/StEfficiencyAssessor/StEfficiencyAssessor.cxx:155-184 | a matched pair fills something iff it passes the geant filter, is primary, passes DCA and fit points, has `|eta| <= 1` and has a pt bin; it then makes six fills, three of them in the matched grid families, all at the cell of its pt bin |
| Differential.TrackStages | old_differential_maker/StEfficiencyAssessor/StEfficiencyAssessor.cxx:189-222 | a primary track makes six fills iff it passes flag, DCA, fit points, eta and pt bin, and six more pion fills iff also `|nSigmaPion| < 2`; all its grid fills are at the cell of its pt bin |
| Differential.PairsFillsLength | old_differential_maker/StEfficiencyAssessor/StEfficiencyAssessor.cxx:153-186 | the pair loop makes exactly six fills per pair counted in `count_pair` |
| Differential.PairsCellsInShape | old_differential_maker/StEfficiencyAssessor/StEfficiencyAssessor.cxx:167-182 | for in-range event bins, every grid fill of the pair loop indexes a cell of the grid |
| Differential.TracksCellsInShape | old_differential_maker/StEfficiencyAssessor/StEfficiencyAssessor.cxx:197-221 | the same for the primary-track loop |
| Differential.EventCellsInShape | old_differential_maker/StEfficiencyAssessor/StEfficiencyAssessor.cxx:118-223 | for an event that the corrected test keeps, every grid fill indexes a cell of the lumi x cent x vz x pt grid |
| Differential.MakeGates | old_differential_maker/StEfficiencyAssessor/StEfficiencyAssessor.cxx:112-134 | `Make` returns `kStErr` iff the search fails; an event is kept iff it is found and its bins are valid; a dropped event fills nothing; a kept one fills at least the seven event-level histograms, `nMCNoParent_` with `count_mc` |
| Differential.AsWrittenGuardOverrunsGrid | old_differential_maker/StEfficiencyAssessor/StEfficiencyAssessor.cxx:129 | the guard as written keeps a centrality of 12 on a 9-row centrality axis, and the first pair then indexes a non-existent grid cell |
| Differential.DifferentialAssessor.constructor | old_differential_maker/StEfficiencyAssessor/StEfficiencyAssessor.cxx:15-32 | loads the chain at entry 0 and installs the default axes and cuts (10 fit points, DCA 3); the grid and id lists are empty |
| Differential.DifferentialAssessor.SetDefaultAxes | old_differential_maker/StEfficiencyAssessor/StEfficiencyAssessor.cxx:47-54 | installs the default axes, which pass `CheckAxes` |
| Differential.DifferentialAssessor.SetLuminosityAxis | old_differential_maker/StEfficiencyAssessor/StEfficiencyAssessor.cxx:56-58 | stores the axis |
| Differential.DifferentialAssessor.SetCentralityAxis | old_differential_maker/StEfficiencyAssessor/StEfficiencyAssessor.cxx:60-62 | stores the axis |
| Differential.DifferentialAssessor.SetVzAxis | old_differential_maker/StEfficiencyAssessor/StEfficiencyAssessor.cxx:64-66 | stores the axis |
| Differential.DifferentialAssessor.SetPtAxis | old_differential_maker/StEfficiencyAssessor/StEfficiencyAssessor.cxx:68-70 | stores the axis |
| Differential.DifferentialAssessor.SetEtaAxis | old_differential_maker/StEfficiencyAssessor/StEfficiencyAssessor.cxx:72-74 | stores the axis |
| Differential.DifferentialAssessor.SetPhiAxis | old_differential_maker/StEfficiencyAssessor/StEfficiencyAssessor.cxx:76-78 | stores the axis |
| Differential.DifferentialAssessor.SetDCAMax | old_differential_maker/StEfficiencyAssessor/StEfficiencyAssessor.hh:72-73 | the getter returns the value set |
| Differential.DifferentialAssessor.SetMinFitPoints | old_differential_maker/StEfficiencyAssessor/StEfficiencyAssessor.hh:75-76 | stores the `unsigned` as an `int`, and the getter returns the value set |
| Differential.DifferentialAssessor.AddGeantId | old_differential_maker/StEfficiencyAssessor/StEfficiencyAssessor.hh:78 | inserts the id; adding a known id changes nothing |
| Differential.DifferentialAssessor.Init | old_differential_maker/StEfficiencyAssessor/StEfficiencyAssessor.cxx:38-45 | succeeds iff the MuDst maker exists and `CheckAxes` holds; any failure is fatal and allocates nothing |
| Differential.DifferentialAssessor.InitOutput | old_differential_maker/StEfficiencyAssessor/StEfficiencyAssessor.cxx:309-431 | fatal with nothing allocated unless `CheckAxes` holds; otherwise the grid has the shape of the lumi, cent, vz and pt axes and every cell of it is allocated |
| Differential.DifferentialAssessor.AllocateLumi | old_differential_maker/StEfficiencyAssessor/StEfficiencyAssessor.cxx:350-429 | allocates exactly the cells of one luminosity bin |
| Differential.DifferentialAssessor.AllocateCent | old_differential_maker/StEfficiencyAssessor/StEfficiencyAssessor.cxx:351-428 | allocates exactly the cells of one (lumi, cent) pair |
| Differential.DifferentialAssessor.AllocateRow | old_differential_maker/StEfficiencyAssessor/StEfficiencyAssessor.cxx:353-426 | allocates exactly the cells of one (lumi, cent, vz) row |
| Differential.DifferentialAssessor.Make | old_differential_maker/StEfficiencyAssessor/StEfficiencyAssessor.cxx:104-236 | aligns the truth chain as `Align` says; status, kept ids and fills are those of `MakeOutcome` under the corrected guard; the id lists stay equally long, and no grid fill lands outside the allocated cells |
| Differential.DifferentialAssessor.KeepEvent | old_differential_maker/StEfficiencyAssessor/StEfficiencyAssessor.cxx:133-233 | a kept event appends its run and event ids together and appends `EventFills`, all of whose grid fills are in allocated cells |
| Differential.DifferentialAssessor.ProcessEvent | old_differential_maker/StEfficiencyAssessor/StEfficiencyAssessor.cxx:136-233 | the loops and the event-level fills append `EventFills` |
| Differential.DifferentialAssessor.CountTruth | old_differential_maker/StEfficiencyAssessor/StEfficiencyAssessor.cxx:136-149 | the truth loop returns `count_mc` |
| Differential.DifferentialAssessor.FillPairs | old_differential_maker/StEfficiencyAssessor/StEfficiencyAssessor.cxx:151-186 | the pair loop appends `PairsFills` and returns `count_pair` |
| Differential.DifferentialAssessor.FillPair | old_differential_maker/StEfficiencyAssessor/StEfficiencyAssessor.cxx:157-184 | one pass of the pair loop body appends `PairFills` and reports whether the pair reached the grid |
| Differential.DifferentialAssessor.FillTracks | old_differential_maker/StEfficiencyAssessor/StEfficiencyAssessor.cxx:188-223 | the primary-track loop appends `TracksFills` |
| Differential.DifferentialAssessor.FillTrack | old_differential_maker/StEfficiencyAssessor/StEfficiencyAssessor.cxx:190-222 | one pass of the primary-track loop body appends `TrackFills` |

## Findings

| source | as written | input that shows it | evidently intended | confidence | as-written member | corrected member |
|---|---|---|---|---|---|---|
| old_differential_maker/StEfficiencyAssessor/StEfficiencyAssessor.cxx:129 | the event test drops only a centrality below 0, yet the centrality indexes the grid, whose centrality extent is `cent_axis_.nBins` | `SetCentralityAxis(9, 0, 9)` and `centrality16()` = 12: the event is kept, and the first accepted pair with pt 1.0 fills `matched_dca_[0][12][0][1]` of a 9-row grid | drop the event also when `centBin >= cent_axis_.nBins` | medium: with the default 16-bin axis and a 16-class definition the two agree; not executed | Differential.AsWrittenGuardOverrunsGrid | Differential.EventCellsInShape |

`Differential.KeptAsWritten` is the guard as written. `Differential.Kept`
is the corrected guard, and `DifferentialAssessor.Make` uses it.

## Left out

- ROOT histogram internals (binning of the filled coordinates, `Sumw2`, `Write`, under- and overflow): a histogram is the log of its fills.
- The absolute inverse Jacobian weight (`pow`, `asin`) of the weighted DCA histograms is a function parameter, because it is floating-point transcendental arithmetic.
- The transverse vertex radius, a square root in `AcceptVr`, is an input field of the event.
- The centrality providers `CentralityDef`, `StRefMultCorr`, `centrality9`, `getCentralityBin9` and `centrality16` are foreign code and become function parameters.
- `InitInput` looks up the MuDst maker in the framework; the model takes the file name (or its absence) as a parameter. The P16id weight-file set-up is framework configuration.
- `LoadTree`, the constructors' `TFile` opening, `Finish` and the `ifstream` opening in `MaskRuns` are framework I/O; the chain is a non-empty sequence of truth entries.
- The null-pointer guards in `LoadEvent` return `kStErr` from a `bool` function, so they report success. They are framework plumbing and are not modelled as alignment results; the null guard at the top of `Make` is not modelled either.
- `PrintCuts` and `PrintStats` only log.
- submit/submit.py (batch submission) is not part of this model.
- The `StRoot` header's declarations that disagree with its `.cxx` (`p17id_cent_def_`, the missing `cuts_`, `cent_def_`, the doubly declared histograms) are not modelled; the `.cxx` decides behaviour.
- `axisDef`'s copy constructor: an `AxisDef` is a value, so a copy is equal to the original by construction.
- EventSelection.EventCuts.AcceptEvent: the `UInt_t` counters are unbounded `nat`s; their wrap-around after 2^32 events is not modelled.
- Assessor.EfficiencyAssessor.Make and Differential.DifferentialAssessor.Make: `count_mc` and `count_pair` are `unsigned`, and their wrap-around is not modelled.
- Doubles are reals: rounding in the bin edges, in `(high - low) / nBins` and in the fit fractions is not modelled.
- RunMaskText: `atoi` on a value outside the `int` range (undefined behaviour in C) is modelled as the exact integer, reduced mod 2^32 when inserted.
