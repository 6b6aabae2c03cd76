# TractoR tracking core and launcher, modelled in Dafny

This project models three parts of TractoR:

- **Streamline tracking.** `Tracker::run` tracks from a seed point through a
  direction field inside a voxel grid and a tracking mask.
  - It makes a "right" pass, then a "left" pass.
  - Each pass checks the bounds, applies the mask rules (leaving the mask,
    deferred termination with "terminate-outside"), marks a visitation map,
    samples a direction, runs an optional loop check on a down-sampled vector
    field, resolves the sign by curvature and moves.
  - It then applies the "must-leave" discard and builds a voxel-space
    `Streamline`.
- **The `Streamline` value and two pipeline stages.** The value has its point
  counts, seed index, labels and termination reasons. The two stages are
  `StreamlineTruncator`, which trims both sides, and
  `StreamlineLengthsDataSink`, which collects total lengths.
- **The launcher of the `tractor` command.** This is the command-line scan
  (`parse_arguments`), the R call that bootstraps an experiment
  (`build_bootstrap_string`), the chunked hand-out of that call through R's
  console reader (`read_console`), and the recogniser for R error messages
  (`is_error_string`).

Modules:

- `Geometry` (geometry.dfy): vectors of reals, C's `round`, voxels and grids.
- `CStrings` (cstrings.dfy): the C library pieces the launcher uses (`strlen`,
  `strcpy`, `strncpy`, `sprintf` of a string, `%d`, `atoi`, `tolower`).
- `Streamlines` (streamline.dfy): Streamline.h.
- `Tracking` (tracker.dfy): Tracker.cpp.
- `Launcher` (launcher.dfy): tractor.c.
- `Maybe` (maybe.dfy): an `Option` type.

How the source maps onto the model:

- **State.** The tracker's visitation map and loop-check field are 3-D arrays.
  The launcher's static variables are the fields of one `Launcher` object, and
  `argv` is an array the scan overwrites with NULL.
- **Tracking.** One trip round the tracking loop is the function `StepOnce`
  and one pass is `Pass`. The methods that run the loop are proved to end
  where `Pass` ends, and the lemmas about `Pass` give what a pass guarantees.
- **Option scan.** The option loop of `parse_arguments` is specified by
  `Scan`. A loop that would spin for ever becomes the outcome `Hangs`.
- **Bootstrap call.** The R call is the function `Bootstrap`. The method
  that writes it, sprintf by sprintf, is proved to produce exactly it, and
  the allocated length is proved to match it.

## Model

| member | source | states |
|---|---|---|
| Geometry.Round | tractor.track/src/Tracker.cpp:77 | C's `round`: the nearest integer, with halfway cases rounded away from zero (two bounds that fix the result uniquely). |
| Geometry.AxisInRange | tractor.track/src/Tracker.cpp:75-83 | On an axis of n voxels, the rounded coordinate is a valid index exactly when the coordinate lies strictly between -0.5 and n - 0.5. |
| Geometry.VoxelsOfMembers | tractor.track/src/Tracker.cpp:112-118 | A voxel is among the voxels of a point list exactly when some point rounds to it. |
| Streamlines.Streamline.constructor | tractor.track/src/Streamline.h:45-46 | Stores both point lists, the point type, the voxel size and the spacing flag unchanged, with no labels and both termination reasons `UnknownReason`. |
| Streamlines.Streamline.NPoints | tractor.track/src/Streamline.h:48 | `nPoints` as written: the total number of points minus one (the seed is counted once); it is 2^64 - 1 when both sides are empty. |
| Streamlines.Streamline.NPointsClamped | tractor.track/src/Streamline.h:48 | `nPoints` as intended: the total minus one, and 0 exactly when there is at most one point. |
| Streamlines.Streamline.SeedIndex | tractor.track/src/Streamline.h:49 | `getSeedIndex` as written: the index of the last left point; it is 2^64 - 1 when the left side is empty. |
| Streamlines.Streamline.SeedIndexClamped | tractor.track/src/Streamline.h:49 | `getSeedIndex` as intended: the index of the last left point, or 0 when there is none. |
| Streamlines.EmptyStreamlineCounts | tractor.track/src/Streamline.h:48-49 | For an empty streamline, both counts as written wrap to 2^64 - 1, while the clamped forms give 0. |
| Streamlines.Streamline.TrimLeft | tractor.track/src/Streamline.h:61 | Replaces the left points by their trimmed form and changes no other field. |
| Streamlines.Streamline.TrimRight | tractor.track/src/Streamline.h:62 | Replaces the right points by their trimmed form and changes no other field. |
| Streamlines.Streamline.AddLabel | tractor.track/src/Streamline.h:64-65 | Returns true iff the label was absent. Afterwards the label is present, and the count has grown by one exactly when it returned true. Nothing else changes. |
| Streamlines.Streamline.RemoveLabel | tractor.track/src/Streamline.h:64-66 | Returns true iff the label was present. Afterwards the label is absent, and the count has dropped by one exactly when it returned true. Nothing else changes. |
| Streamlines.Streamline.SetLabels | tractor.track/src/Streamline.h:69 | Replaces the label set and nothing else. |
| Streamlines.Streamline.ClearLabels | tractor.track/src/Streamline.h:70 | Empties the label set (`nLabels` is 0) and changes nothing else. |
| Streamlines.Streamline.SetTerminationReasons | tractor.track/src/Streamline.h:74-78 | Sets exactly the two termination reasons. |
| Streamlines.StreamlineTruncator.constructor | tractor.track/src/Streamline.h:89-90 | Stores the two maximum lengths. |
| Streamlines.StreamlineTruncator.Process | tractor.track/src/Streamline.h:92-97 | Always returns true. Trims the left side to `maxLeftLength` and the right side to `maxRightLength`, and changes nothing else. |
| Streamlines.StreamlineLengthsDataSink.constructor | tractor.track/src/Streamline.h:100-103 | Starts with no lengths. |
| Streamlines.StreamlineLengthsDataSink.Put | tractor.track/src/Streamline.h:106-109 | Appends exactly one element, the left length plus the right length, and leaves the earlier elements unchanged. |
| Tracking.LoopcheckCellInRange | tractor.track/src/Tracker.cpp:134-137 | Every location that passes the bounds check has its loop-check cell (coordinates divided by 5, then rounded) inside the field of round(dim / 5) + 1 cells per axis, which the source indexes unchecked. |
| Tracking.CHalf | tractor.track/src/Tracker.cpp:65 | `maxSteps/2` with C's truncating division: twice the result is within one of `maxSteps`, on the side of zero. |
| Tracking.CurvatureSign | tractor.track/src/Tracker.cpp:154-161 | No sign exactly when the absolute value of dot(previous, current) is below the threshold. Otherwise the sign is +1 iff the dot product is positive, and the signed step's dot product with the previous step is that absolute value, at least the threshold. |
| Tracking.Tracker.constructor | tractor.track/src/Tracker.cpp:15-26 | A tracker with a zero rightwards vector and no scratch arrays yet. |
| Tracking.Tracker.Proceed | tractor.track/src/Tracker.cpp:110-175 | Past the mask check, one trip appends the location. It stops on a loop or on curvature, or moves with the history extended by one step. |
| Tracking.Tracker.StepOnce | tractor.track/src/Tracker.cpp:67-175 | One trip round the loop body either appends the location and moves, or stops having appended nothing or only the location. |
| Tracking.Tracker.Pass | tractor.track/src/Tracker.cpp:65-176 | A pass of k trips only extends the points. It appends at most k of them, and exactly k when it ends at the step limit. |
| Tracking.Tracker.PassStarting | tractor.track/src/Tracker.cpp:35-175 | `starting` stays set after a pass exactly when it was set before and the pass made no move. |
| Tracking.Tracker.PassTrail | tractor.track/src/Tracker.cpp:65-176 | Through a pass: the seed comes first and every point rounds into the grid. Each move is sampled at the point before it, signed by curvature (or by the coin on a random first move), loop-checked, and advances the location by the step. |
| Tracking.Tracker.PassOutcomes | tractor.track/src/Tracker.cpp:67-160 | Through a pass: the mask flag and the break that ended the pass agree with the points. Without "terminate-outside", the flag is set iff the pass stopped for leaving the mask. With it, the flag is set iff the points cross from inside to outside. Each break's own condition holds at the last point. |
| Tracking.Tracker.PassFacts | tractor.track/src/Tracker.cpp:65-176 | A pass from any running loop head keeps both the path facts and the outcome facts. |
| Tracking.Tracker.TrackedPass | tractor.track/src/Tracker.cpp:55-125 | A pass of maxSteps/2 trips from the seed gives at most maxSteps/2 points, exactly that many at the step limit, and at least the seed when the seed is within the grid. It keeps every fact of `PassTrail` and `PassOutcomes`. |
| Tracking.Tracker.PassStep | tractor.track/src/Tracker.cpp:65-176 | A pass with a trip left makes one trip, then ends where the rest of the pass ends. |
| Tracking.Tracker.PassFirstMove | tractor.track/src/Tracker.cpp:55-166 | A pass from the seed starts from the previous step it is given. A random first move takes the coin's sign. Any other first move makes a dot product of at least the threshold with that starting step. |
| Tracking.Tracker.ProceedMoves | tractor.track/src/Tracker.cpp:146-166 | Once past the loop check with a resolved sign, the trip moves by the signed sampled step. |
| Tracking.Tracker.RoundLocation | tractor.track/src/Tracker.cpp:74-83 | The per-axis bounds loop reports in-bounds exactly when every rounded coordinate is a valid index, and then gives the rounded voxel. |
| Tracking.Tracker.ClearVisited | tractor.track/src/Tracker.cpp:23 | Afterwards no entry of the visitation map is set. |
| Tracking.Tracker.ResetLoopcheck | tractor.track/src/Tracker.cpp:52-53 | Afterwards every cell of the loop-check field is zero. |
| Tracking.Tracker.MarkVisited | tractor.track/src/Tracker.cpp:112-118 | Marks one voxel visited and leaves every other entry as it was. |
| Tracking.Tracker.StoreLoopcheck | tractor.track/src/Tracker.cpp:143 | Storing the previous step in the point's cell keeps the field equal to the last step written in each cell. |
| Tracking.Tracker.TrackHead | tractor.track/src/Tracker.cpp:67-125 | The checks at the top of the loop body stop exactly where `StepOnce` stops. Otherwise they mark the voxel visited and append the location. |
| Tracking.Tracker.TrackMove | tractor.track/src/Tracker.cpp:127-175 | The rest of the loop body agrees with `Proceed`, and the rightwards vector is set only by a random first move. |
| Tracking.Tracker.TrackStep | tractor.track/src/Tracker.cpp:67-175 | One trip of the loop body on the real state agrees with `StepOnce`. It keeps the visitation map equal to the voxels of the appended points and the loop-check field equal to the last steps written. |
| Tracking.Tracker.TrackLoop | tractor.track/src/Tracker.cpp:59-176 | The step loop ends exactly where `Pass` ends. It marks the voxels of its points and sets the rightwards vector to the first resolved step when that step was random. |
| Tracking.Tracker.TrackPass | tractor.track/src/Tracker.cpp:52-176 | One pass zero-fills the loop-check field, then starts at the seed: from +rightwardsVector (dir 0) or -rightwardsVector (dir 1) when the vector was valid on entry, else from the previous step it was handed. It ends where `Pass` ends. |
| Tracking.Tracker.Prepare | tractor.track/src/Tracker.cpp:15-34 | The visitation map is created all false or refilled with false. The loop-check field is created, fresh and all zero, exactly when loop checking is on and there is no field yet; otherwise it is left as it was. Existing arrays are reused. |
| Tracking.Tracker.TrackBothWays | tractor.track/src/Tracker.cpp:35-189 | The two passes with the must-leave discard of each side. The visitation map holds exactly the voxels of the points appended in the run, and the rightwards vector is updated as `RightwardsAfter` says. |
| Tracking.Tracker.Run | tractor.track/src/Tracker.cpp:7-195 | `run` returns a voxel-space streamline with the kept points of each side, the mask's voxel size, fixed spacing, no labels and both reasons unknown. The visitation map marks exactly the run's voxels, and existing scratch arrays are reused. |
| Tracking.Tracker.RunSides | tractor.track/src/Tracker.cpp:55-125 | Each side of a run has at most maxSteps/2 points, all rounding into the grid, with the seed first. It has at least the seed when the seed lies within the grid and maxSteps >= 2. |
| Tracking.Tracker.RunKept | tractor.track/src/Tracker.cpp:179-186 | Without "must-leave", a side keeps all its points. With it, a side keeps them exactly when its pass crossed from inside the mask to outside (without "terminate-outside": exactly when it stopped for leaving the mask). Otherwise it keeps none. |
| Tracking.Tracker.RunDirections | tractor.track/src/Tracker.cpp:36-174 | With a valid rightwards vector rv, the right pass starts from +rv and the left from -rv, and the left pass's first step has dot product >= threshold with -rv. With rv zero, the right pass's first sign is the coin's, and the left pass starts from the right pass's last step, not negated. When both passes moved, the left pass's first step then has dot product >= threshold with the right pass's last step. |
| Launcher.AllocateAndCopyString | src/tractor.c:19-30 | A copy of the string, or the never-assigned pointer exactly when given NULL. |
| Launcher.Factor | src/tractor.c:76-83 | The `-p` value is atoi's result when that lies in 1..99, else 1; always in 1..99. |
| Launcher.ScanOption | src/tractor.c:41-103 | One trip of the option loop. It breaks iff the argument has no dash and no script file is set yet, and the break sets the script file. `-w`/`-l`/`-c`/`-g` drop 2, `-p` drops 2 iff a value follows, and other dash options drop 1. The factor stays in 1..99; `-p` with a value sets it to `Factor` of that value. What each other option stores is stated by `OptionSettings`. |
| Launcher.OptionSettings | src/tractor.c:52-103 | `-w`, `-l` and `-c` store a copy of the next argument (left uninitialised when there is none). `-g` records the next argument as the log file. `-f` sets profiling to 1 and `-m` sets colour to 0. Each changes only its own setting, and an unrecognised dash option changes no setting. |
| Launcher.ScanStep | src/tractor.c:39-108 | One trip round the option loop: a break ends the scan there, a zero to_drop hangs there, and otherwise the scan continues to_drop arguments on. |
| Launcher.ScanFindsScript | src/tractor.c:43-50 | A scan that breaks stopped at an argument with no leading dash, which became the script file. |
| Launcher.ScanHangs | src/tractor.c:72-107 | A scan hangs only on a `-p` that is the last argument, or on an argument without a dash once the script file is set. |
| Launcher.ScanKeepsScript | src/tractor.c:43-50 | Only the break sets the script file. |
| Launcher.ScanKeepsFactor | src/tractor.c:72-86 | The scan keeps the parallelisation factor in 1..99. |
| Launcher.ScriptArgsAreTheRest | src/tractor.c:39-108 | After a scan that found the script file, the arguments left in argv are every argument after it, dash-prefixed ones included, in order. After a scan that ran out of arguments, none are left. |
| Launcher.FreshScanHangs | src/tractor.c:72-107 | From the program's initial state, the scan hangs only on a `-p` that is the last argument. |
| Launcher.TrailingFactorHangs | src/tractor.c:72-107 | A `-p` reached as the last argument leaves to_drop at 0 and changes nothing, so the loop repeats that iteration for ever. |
| Launcher.TrailingValueUninitialised | src/tractor.c:52-66 | `-w`, `-l` or `-c` as the last argument stores the uninitialised pointer that `allocate_and_copy_string(NULL)` returns. |
| Launcher.SpacedIsJoin | src/tractor.c:114-133 | Writing each argument and a space, then overwriting the last space, gives the arguments joined by single spaces. The length written is the length the second pass summed. |
| Launcher.SpacedStep | src/tractor.c:111-131 | One more argv entry: the second pass adds its length plus one and the third writes it and a space; a NULL entry adds nothing. |
| Launcher.Bootstrap | src/tractor.c:204-219 | The R call starts with the fixed prefix and ends with `")\n"`. |
| Launcher.QuotedAllowance | src/tractor.c:186-194 | What the length computation adds for a quoted argument equals the length of what is written for it. |
| Launcher.LevelAllowance | src/tractor.c:189-190 | What the length computation adds for the output level equals the length written for it. |
| Launcher.FactorAllowance | src/tractor.c:195-215 | The factor's allowance equals what `%d` writes for factors up to 99, and falls short from 100 on. |
| Launcher.FactorArgumentLength | src/tractor.c:196-215 | `%d` of a factor takes one digit below 10, two below 100, and more from 100 on. |
| Launcher.BootstrapLength | src/tractor.c:204-219 | The length of the call, piece by piece. |
| Launcher.AllocatedLengthExact | src/tractor.c:182-201 | With a factor of at most 99, the allocated length is exactly the written call plus its NUL. |
| Launcher.AllocatedLengthShort | src/tractor.c:195-215 | A factor of 100 or more would overrun the allocation. |
| Launcher.NoNulBootstrap | src/tractor.c:204-219 | The call contains no NUL when its strings contain none. |
| Launcher.WriteBootstrap | src/tractor.c:201-219 | The writing half of `build_bootstrap_string` fills the allocated buffer with exactly the call and its NUL. |
| Launcher.WritePieces | src/tractor.c:204-219 | The sprintf sequence writes the head, each piece whose test holds, and `")\n"`, then a NUL at the last byte. |
| Launcher.AppendIf | src/tractor.c:206-217 | A guarded sprintf: the offset moves past the piece written, or stays when the test fails. |
| Launcher.Append | src/tractor.c:204-219 | One sprintf writes the piece and a NUL after what is there, and returns the new offset. |
| Launcher.IsErrorString | src/tractor.c:276-300 | Returns 1 iff the string is a run of spaces and `*` followed by the letters of "error" in any case, with anything after; otherwise 0. |
| Launcher.PaddingLength | src/tractor.c:285-296 | The length of the leading run of spaces and asterisks. |
| Launcher.Launcher.constructor | src/tractor.c:8-11 | The static initial values: everything NULL, factor 1, profiling off, colour on, and `remaining_len` at `(size_t) -1`. |
| Launcher.Launcher.ParseArguments | src/tractor.c:32-135 | The settings and argv are what `Scan` leaves, and it reports a hang exactly where the loop would spin. Otherwise `script_args` becomes the remaining arguments joined by single spaces, or is left unchanged when none remain. The settings' strings stay NUL-free and the factor in 1..99. |
| Launcher.Launcher.RemoveOptions | src/tractor.c:37-108 | The first pass ends with the settings `Scan` gives and with every consumed argument set to NULL. It reports a hang exactly when the loop would spin. |
| Launcher.Launcher.ConsumeOption | src/tractor.c:41-107 | One iteration: on a break, the script argument is set to NULL and the scan ends here. With to_drop 0, argv is unchanged and the scan hangs. Otherwise to_drop more entries are NULL and the scan continues from there. |
| Launcher.Launcher.Overwrite | src/tractor.c:105-106 | Sets the n entries from the current argument on to NULL and no others. |
| Launcher.Launcher.ApplyOption | src/tractor.c:41-103 | The if-chain updates the settings, to_drop and the break exactly as `ScanOption` says. |
| Launcher.Launcher.ArgumentsLength | src/tractor.c:110-115 | The second pass sums each remaining argument's length plus one. |
| Launcher.Launcher.CopyArguments | src/tractor.c:117-131 | The third pass fills a fresh buffer of that length plus one with each remaining argument followed by a space, and stops at that length. |
| Launcher.Launcher.CopyArgument | src/tractor.c:124-130 | Two strcpy calls write the argument and a space, and the index moves past both. |
| Launcher.Launcher.Terminate | src/tractor.c:133 | Overwriting the last space with NUL leaves the arguments joined by single spaces. |
| Launcher.Launcher.BuildBootstrapString | src/tractor.c:173-220 | Allocates exactly the computed length and writes the R call and its NUL into it. |
| Launcher.Launcher.BootstrapAllocation | src/tractor.c:182-198 | The length computation gives `AllocatedLength`. |
| Launcher.Launcher.ReadConsole | src/tractor.c:222-260 | The first call builds the call. Until the call is used up, each call hands out the next slice of it, at most buffer_len bytes, and returns 1, so the slices concatenate to the call. A slice shorter than buffer_len is NUL-terminated, and one of exactly buffer_len bytes is not. After that the call is delegated. |
| Launcher.Launcher.StartBootstrap | src/tractor.c:231-235 | The first call builds the call and sets remaining_len to its (non-zero) strlen, with nothing handed out yet. |
| Launcher.Launcher.CallLength | src/tractor.c:234 | strlen of the buffer is the length of the call. |
| Launcher.Launcher.HandOut | src/tractor.c:247-259 | A later call while part of the call is left hands out its next slice. |
| Launcher.Launcher.HandOutRest | src/tractor.c:249-253 | When the rest fits with its NUL, the rest is copied, NUL-terminated, and nothing is left. |
| Launcher.Launcher.HandOutSlice | src/tractor.c:254-259 | Otherwise exactly buffer_len bytes of the call are copied, with no NUL, and remaining_len and current_offset move by buffer_len. |
| CStrings.CLength | src/tractor.c:234 | strlen: the length of the longest NUL-free prefix. |
| CStrings.StrLen | src/tractor.c:234 | The strlen loop stops at the first NUL. |
| CStrings.Write | src/tractor.c:204-219 | Writes the string and a NUL at the offset and leaves what comes before it unchanged. |
| CStrings.StrCpy | src/tractor.c:251 | Copies the C string at the offset, with its NUL. |
| CStrings.StrNCpy | src/tractor.c:256 | Copies n bytes from the offset. |
| CStrings.DecimalLength | src/tractor.c:196-215 | `%d` of a non-negative value has one digit below 10, two below 100, and three or more from 100 on. |
| CStrings.AtoiDecimal | src/tractor.c:76 | atoi reads back the value `%d` writes. |

## Left out

- **Tracker: rightwards vector on a first run.** On the first run of a
  tracker, the left pass starts from the right pass's last step, not its
  negation. This is because `rightwardsVectorValid` is read once, on entry
  (tractor.track/src/Tracker.cpp:36). The model keeps this behaviour, and
  `RunDirections` states it. The source does not say whether it is intended,
  so it is not listed as a finding.
- **Tracker: constructor call.** `Tracker::run` builds its `Streamline` with
  four arguments (tractor.track/src/Tracker.cpp:193), but Streamline.h shows
  only a five-argument constructor. The model passes the mask's voxel size as
  the fourth (tractor.track/src/Tracker.cpp:10).
- **Tracker: collaborators.** The mask, the data source's `sampleDirection`
  and R's `unif_rand` become, in turn, a value with an occupancy function, a
  deterministic function of (location, previous step), and a parameter
  `coin`, the single draw a run can make. A data source that fails (NoData)
  is not modelled. `LOOPCHECK_RATIO` (Tracker.h is not part of this model) is
  5, from the 5x5x5 block the source describes. It is taken to be a
  floating-point constant (the real 5.0), so `spaceDims[i] / LOOPCHECK_RATIO`
  at tractor.track/src/Tracker.cpp:32 divides without truncating.
  `LoopcheckCellInRange` relies on this. With an integer ratio, a 9-voxel axis
  would get 2 cells, while the location 8.4 rounds to cell 2, one past the end.
- **Tracker: constructor and setters.** Tracker.h is not part of this model.
  The constructor's parameters and the zero initial rightwards vector are
  assumed from how tractor.track/src/Tracker.cpp uses them (lines 15-34 only
  test the scratch arrays for NULL). The model has no setter for the seed or
  the rightwards vector. The seed is fixed at construction, and the
  rightwards vector changes only through a run.
- **Tracker: floating point.** Coordinates, vectors and dot products are exact
  reals, not `float`. C's `round` keeps its halfway rule.
- **Tracker: `timesLeftMask`.** It is written but never read, so it is not
  modelled. Logging and `Rcout.precision` are left out.
- **Tracker: scratch arrays.** `flattenIndex` and the `Array` class are
  replaced by 3-D Dafny arrays indexed by voxel.
- **Streamlines: path operations.** `getLength`, `trim` and
  `concatenatePoints` are defined in Streamline.cpp, which is not part of this
  model. Trimming and lengths take them as function parameters, and
  `concatenatePoints` is not modelled. The plain getters have no contract of
  their own.
- **Launcher: process plumbing.** `main`, R's initialisation and main loop,
  the R callback pointers, `write_console`, `set_colour`, `tidy_up` and the
  messages written to stderr are not modelled.
- **Launcher: `-g`.** `-g` records the name of the log file instead of
  opening it. Writing to the log is not modelled.
- **Launcher: the delegated branch of `read_console`.** The call to R's
  default reader is represented by its result, a parameter. The debug echo of
  the bootstrap call to stdout is left out.
- **Launcher: malloc and size_t.** `malloc` never fails, and the lengths
  stay below 2^64: `ReadConsole` requires the allocated length to be at most
  `(size_t) -1`.
- Launcher.Launcher.ParseArguments: where the option loop would repeat one
  iteration for ever, the method returns with `hangs` set instead of
  diverging. `ScanHangs`, `FreshScanHangs` and `TrailingFactorHangs` state
  when this happens.
- Launcher.Launcher.ParseArguments: `argv` entries are taken to be NUL-free C
  strings, with NULL at `argv[argc]`, as C guarantees. The second and third
  passes read a snapshot of the array, which the first pass has finished
  changing.
- Launcher.Launcher.ReadConsole: `buffer_len` is taken to be at least 1 and to
  be the buffer's length. The bootstrap call must be buildable, meaning a
  script file is set and no pointer is uninitialised. The lemmas
  `TrailingValueUninitialised` and `FreshScanHangs` show how the scan can
  break this.
- CStrings.Atoi: overflow of `atoi` is undefined in C and is not modelled;
  the value is the exact integer.

## Findings

| source | as written | input that shows it | evidently intended | confidence | as-written member | corrected member |
|---|---|---|---|---|---|---|
| tractor.track/src/Streamline.h:48 | `max(size_t(n) - 1, 0)`; on `size_t`, `max` with 0 never changes anything | A streamline with both sides empty, e.g. after the must-leave discard of both passes: `nPoints` is 2^64 - 1 | 0 points for an empty streamline | not executed | Streamlines.Streamline.NPoints (exhibited by Streamlines.EmptyStreamlineCounts) | Streamlines.Streamline.NPointsClamped |
| tractor.track/src/Streamline.h:49 | `max(size_t(leftPoints.size()) - 1, 0)`, the same no-op clamp | A streamline whose left side is empty, e.g. after a must-leave discard: `getSeedIndex` is 2^64 - 1 | index 0 when there is no left point | not executed | Streamlines.Streamline.SeedIndex (exhibited by Streamlines.EmptyStreamlineCounts) | Streamlines.Streamline.SeedIndexClamped |
