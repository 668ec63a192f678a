# Verification model of the football research platform

This project models the calibration, leakage, scheduling, maintenance and audit logic of the research platform in
Dafny and proves properties of the model. Run `dafny verify dfyconfig.toml` in this directory to check all of it.

Probabilities are exact reals and times are integers. Values that the code gets from elsewhere are parameters:
provider and API answers, database contents, clocks, random draws, the completeness test of SQLite. Hashes are
taken to be injective, so a comparison of hashes is a comparison of what was hashed.

## What is modelled

- **Calibration** (`IsotonicFit`, `IsotonicCurve`, `IsotonicReading`, `IsotonicApply`, `IsotonicShrinkage`): the
  pool-adjacent-violators loop with its rescan after every merge, and the least-squares theorem about it; the curve
  with its end points; interpolation, shrinkage, clipping and renormalisation of a row, and how far an entry moves.
- **Score matrices** (`JointProjection`): `project` and the nested in-place loop of `raw_matrices`.
- **As-of features** (`XgSweep`, `XgEvidence`): the cursor sweep against the plain definition over everything available
  by kickoff, and what an adjusted figure says about the opponent.
- **Rome clock** (`RomeClock`, `RomeReading`): Europe/Rome as an offset of one or two hours that changes at given
  instants, more than three days apart; the hour that a change skips or repeats lies inside one day. The safety results about nightly
  admission need one thing more: the clock shows no midnight twice (`MidnightOnce`). The European rule, under which
  every change happens at 01:00 UTC, implies it (`EuropeanMidnight`).
- **Nightly admission** (`NightlyGuard`, `NightlyRules`, `NightlyProtocol`, `NightlySafety`, `NightlyReads`,
  `NightlyRuns`, `NightlyWitness`): the guard as a procedure, then any number of workflow runs, attempts and guard reads as a state
  machine. A run may be in progress with its job still queued, it is listed in progress before its guard reads, and
  the listing and each job request are separate steps.
  The two are tied: on the same reads the machine admits an ordinary attempt exactly when the procedure does. The
  safety results speak of the flags of a run and of the clock that its guard read, not of what the guard made of them.
- **Purged splits** (`TemporalSplits`, `FrozenSplits`, `SplitReading`, `SplitReplay`, `Calendar`, `SeasonWindows`,
  `SeasonPlan`, `SeasonReading`, `SeasonRoundTrip`, `SeasonWitness`): the chronological generator, the plan checker, the fixed-window generator, the
  replay of recorded manifests, the calendar planner and its round trip. The planner works in microseconds.
- **Operational reset** (`OperationalData`, `OperationalReset`, `OperationalOutcome`, `OperationalStore`,
  `OperationalGaps`): the inspection, the ordered deletes with their subqueries, three-valued `NOT IN`, references that are enforced or only
  checked, triggers, the opening row and the second inspection.
- **CSV seed** (`CsvSeed`, `CsvReading`, `CsvSeedProtocol`): the write transaction, and any interleaving of planning reads,
  transactions and failures.
- **Audit** (`ResultMonitoring`, `ResultOutcome`, `Coverage`, `CoverageReading`, `SqlStatements`, `BlockBootstrap`,
  `BootstrapReading`, `CalibrationError`, `CalibrationReading`, `FeatureMasks`).
- **Shared** (`Wrappers`, `Reals`, `Integers`, `Sequences`, `Tallies`): options and results, arithmetic, sums, stable
  sorting, filtering, counters by label.

The modules named `Reading`, `Rules`, `Evidence`, `Shrinkage` and `Outcome` say what the specification functions of
their neighbours mean in figures, dates and conditions on the inputs, so that no main result rests on a function that
only its own definition explains.

## Where the code falls short of what it suggests

Each of these is proved with its exact condition, in both directions.

- The fit asks for a number of buckets and may build fewer: 51 observations, ten buckets, nine pools
  (`IsotonicCurve.BucketCountReached`, `IsotonicCurve.FewerPoolsThanBuckets`). The pool weights sum to the pools
  that were built.
- `project` divides a class mass by EPS at least, so it cuts smaller masses. It is idempotent exactly when the prior
  masses and the masses to expect are cut in the same proportion on the classes of the target, and it forgets an
  earlier target exactly when they are on all classes. For matrices whose classes are empty or at least EPS: exactly
  when no class with mass is given a share strictly between 0 and EPS of what the classes with mass are given, and
  exactly when each is given at least that. `JointProjection.TinyTargetFails` is a target that breaks both. The loop
  in `raw_matrices` floors at 1e-12 instead and differs from `project` when a prior mass lies strictly between 0 and
  that floor.
- `primarySchedule` names an earlier boundary between two occurrences of a repeated 03:07. The European clock
  rule repeats no time after 03:00, so there the case does not arise.
- The guard lists the runs of a day from the later of two midnights. On a clock that repeats a midnight, a run of the
  first 00:xx is missed by a later listing and two ordinary runs of the day can succeed; on any other clock that
  cannot happen (`NightlyWitness.SafeIff`).
- The guard pairs the first sync success of a job with its first marker success. A success whose first marker finished
  before the first sync, supported by another sync, is overlooked (`NightlyGuard.RecognisedIff`,
  `NightlyGuard.OutOfOrderContinues`). The workflow lists each of these steps once
  (`.github/workflows/nightly-sync.yml:135-143`), so its own jobs are never of that kind.
- Replaying the manifests of generated folds adds rows to training: those forecast between the first and the last
  original training forecast whose labels became known between the validation cut and the first selection forecast.
  Nothing forecast after the last training forecast is added. A run with more than eight folds cannot be replayed.
- A forecast in the last millisecond of a test window is counted by the planner and not selected by the generator
  (`SeasonWitness.LateRowIsLost`); the earlier windows are exact, and with millisecond timestamps so is the test
  window. A plan fails when forecast and kickoff lie in different target seasons.
- The cross-family checks of the reset do not compare the origin decisions of paper, funded and dynamic bets. If
  such a bet of A named an origin decision of C, the reset would fail on references
  (`OperationalGaps.CrossedOriginPasses`). The insert triggers of those tables rule it out
  (`OperationalGaps.AuthorizedOriginsAgree`).
- The protected-data comparison of the reset can fail when an id or a key is NULL, because `NOT IN` is then unknown: a
  TEXT primary key admits NULL (`OperationalGaps.NullKeyFails`). The opening id `open:shadow_C` can collide with a row
  of another portfolio (`OperationalGaps.TakenIdFails`).
- Linked, pending and excluded forecasts split the past ones only when no fixture after the cutoff is linked; the
  filters of `resultMonitoring` guarantee that.
- The two missing-forecast counts differ by the excluded fixtures alone exactly when every calendar row that a later
  row of its match replaces has a usable forecast or lies outside the window (`Coverage.CountsAgreeIff`). A replaced
  row needs a `matches` table without the primary key that `backend/src/db/DatabaseService.ts:556` declares, or NULL
  ids; the inspection only notes a missing key (line 76 of its script), while it checks the provider calendar for
  unique ids (line 234).
- Received forecasts are the recorded and the unconfirmed ones exactly when no pending forecast of the scope is stored
  outside the scope (`Coverage.ReceivedIff`).

## Model

| member | source | states |
|---|---|---|
| `IsotonicFit.PoolAdjacent` | backend/ml/diagnose.py:196-202 | the rescanning merge loop ends with a fit that no non-decreasing assignment to the initial buckets beats in squared error, and keeps order and the unit square |
| `IsotonicFit.MergeKeepsPartition` | backend/ml/diagnose.py:199-201 | merging a decreasing pair keeps every prefix mean of every pool at or above the pool mean, and the pools a partition of the buckets |
| `IsotonicFit.LeastSquares` | backend/ml/diagnose.py:196-202 | any partition with that prefix property is at least as close as any monotone assignment, with the squared distance between the two to spare |
| `IsotonicFit.FitIsTheUniqueOptimum` | backend/ml/diagnose.py:196-202 | the fitted values are monotone and are the only closest monotone values |
| `IsotonicFit.FitConserves` | backend/ml/diagnose.py:199-201 | weights sum to the number of initial buckets, and the weighted sums of predictions and of outcomes are the initial ones |
| `IsotonicCurve.FitIsotonic` | backend/ml/diagnose.py:186-203 | the whole fit: sorting, bucket size, slices, pooling, the two end points; for inputs in the unit square the curve is a calibration curve |
| `IsotonicCurve.BuildPools` | backend/ml/diagnose.py:192-195 | the slicing loop yields one unit-weight pool of means for each started slice |
| `IsotonicCurve.BucketsOfFive` | backend/ml/diagnose.py:188-192 | one bucket for every full five pairs and ten from fifty on, with slices just large enough for all pairs |
| `IsotonicReading.PairsRead` | backend/ml/diagnose.py:187 | the fitted pairs are the predictions with their outcomes as far as both lists go, by increasing prediction, and in the given order for one prediction |
| `IsotonicReading.PoolsRead` | backend/ml/diagnose.py:193-195 | bucket k has weight one, the mean prediction and the mean outcome of the k-th slice |
| `IsotonicReading.PointsRead` | backend/ml/diagnose.py:203 | the points are (0, 0), the means of the pools with predictions across and outcomes up, and (1, 1) |
| `IsotonicCurve.CurveIsCalibration` | backend/ml/diagnose.py:203 | with its end points (0, 0) and (1, 1) the curve is non-decreasing in both coordinates and stays in the unit square |
| `IsotonicCurve.InitialPoolCount` | backend/ml/diagnose.py:193-195 | the number of initial pools is the number of pairs over the slice size, rounded up |
| `IsotonicCurve.BucketCountReached` | backend/ml/diagnose.py:188-195 | exactly when the number of initial pools is the requested bucket count |
| `IsotonicCurve.FewerPoolsThanBuckets` | backend/ml/diagnose.py:188-195 | 51 observations ask for ten buckets and get nine |
| `IsotonicApply.InterpMonotone` | backend/ml/diagnose.py:208 | interpolation on a calibration curve is monotone |
| `IsotonicShrinkage.ThroughPoints` | backend/ml/diagnose.py:208 | the interpolated value at a point is that of the point, the last one where an abscissa is repeated; `OnCurve` says that between two points it lies on their chord |
| `IsotonicApply.ShrunkStrict` | backend/ml/diagnose.py:209-210 | shrinkage separates what the curve merges: strictly larger inputs stay strictly larger before clipping |
| `IsotonicApply.ApplyKeepsOrder` | backend/ml/diagnose.py:206-211 | a calibrated row is positive, sums to one and keeps the weak order of its entries, whatever their weights; how far an entry moves is stated by `IsotonicShrinkage.RowMoves` |
| `IsotonicShrinkage.RowMoves` | backend/ml/diagnose.py:206-211 | every entry of a calibrated row, times one common factor, is the clipped point to which the original entry moves: a tenth of the way to the curve below 200 rows, then n parts of 1000 + n, and nine tenths at most |
| `IsotonicShrinkage.BecomesUnique` | backend/ml/diagnose.py:206-211 | curve, number of rows and entry leave one such clipped point |
| `IsotonicShrinkage.MoreRowsMoveFurther` | backend/ml/diagnose.py:209-210 | more rows move an entry at least as far, in the same direction and never past the curve |
| `IsotonicApply.FirstMaxOnce` | backend/ml/diagnose.py:206-211 | every row of probabilities has one predicted outcome: the first of its largest entries |
| `IsotonicApply.FirstMaxKeptIff` | backend/ml/diagnose.py:206-211 | the first largest entry stays first exactly when clipping does not tie it with an earlier one |
| `IsotonicApply.FirstMaxKeptOnSimplex` | backend/ml/diagnose.py:206-211 | on a probability triple the predicted outcome is always kept |
| `JointProjection.ReweightMasses` | backend/ml/diagnose.py:236-238 | class masses after reweighting, from the target and the floor alone |
| `JointProjection.ProjectedIsExpected` | backend/ml/diagnose.py:230-238 | a matrix can be projected exactly when the cut target has a positive total, and the masses of the projection are the cut target over that total |
| `JointProjection.ProjectHitsTarget` | backend/ml/diagnose.py:230-238 | with no prior mass below EPS, the projected matrix has the target as its three class masses; that class 0 is the cells with more home goals is `JointProjection.OutcomeSums` |
| `JointProjection.OutcomeSums` | backend/ml/diagnose.py:115-118 | the class masses are the sums of the cells with more home goals than away goals, with as many, with fewer |
| `JointProjection.ReweightIsPlain` | backend/ml/diagnose.py:230-238 | cell by cell, for any matrix, floor and target: a cell is multiplied by the target of its outcome over the floored sum of the cells of that outcome and divided by the total of what this gives; there is no result exactly when that total is zero |
| `JointProjection.ProjectedSums` | backend/ml/diagnose.py:230-238 | for any matrix in which no outcome has less than 1e-15: after `project` the cells with more home goals sum to the home target, those with as many to the draw target, those with fewer to the away target |
| `JointProjection.ProjectKeepsRatios` | backend/ml/diagnose.py:237-238 | ratios between cells of one class are kept |
| `JointProjection.IdempotentIff` | backend/ml/diagnose.py:230-238 | for every matrix that can be projected, from its masses and the target alone: projecting twice changes nothing exactly when EPS cuts the prior masses and the expected ones in the same proportion on the classes of the target |
| `JointProjection.NonNegativeProper` | backend/ml/diagnose.py:230-238 | every matrix of non-negative cells is one of those that both laws speak of |
| `JointProjection.IdempotentSettled` | backend/ml/diagnose.py:230-238 | when each class is empty or at least EPS: exactly when no class with mass is given a share strictly between 0 and EPS of what the classes with mass are given |
| `JointProjection.ComposesIff` | backend/ml/diagnose.py:230-238 | for every matrix that can be projected, from its masses and the target alone: projecting onto s and then onto any t equals projecting onto t exactly when both are cut in the same proportion on all classes |
| `JointProjection.ComposesSettled` | backend/ml/diagnose.py:230-238 | when each class is empty or at least EPS: exactly when each class with mass is given at least that share |
| `JointProjection.SameMassesSameMatrix` | backend/ml/diagnose.py:237-238 | a chain of two projections is the matrix of a single one as soon as it has its class masses |
| `JointProjection.FullPriors` | backend/ml/diagnose.py:230-238 | with no class below EPS both laws are conditions on the target: none of its classes strictly between 0 and EPS, none below EPS |
| `JointProjection.TinyTargetFails` | backend/ml/diagnose.py:230-238 | a uniform matrix and a target class of half EPS break both laws |
| `JointProjection.CorrectMatrix` | backend/ml/train.py:249-254 | the nested in-place loop and the normalisation compute a reweighting with floor 1e-12, on a probability matrix the one of `IsReweighted`; with no outcome below that floor the cells where home scores more sum to the corrected home probability, and so for draw and away |
| `JointProjection.LoopIsReweight` | backend/ml/train.py:127-135 | on a probability matrix and a positive triple that normalisation never fails |
| `JointProjection.LoopIsProjectIff` | backend/ml/train.py:249-254 | the loop and `project` give the same matrix exactly when no prior mass lies strictly between 0 and 1e-12 |
| `XgSweep.StrengthIsCausal` | backend/scripts/audit-challenger-temporal.py:146-150 | a strength does not depend on matches that become available after the cutoff |
| `XgSweep.ObservationIsCausal` | backend/scripts/audit-challenger-temporal.py:71-72 | an observation is unchanged by any change to matches available after its kickoff, among them the match itself |
| `XgSweep.PrefixIsAsOf` | backend/scripts/audit-challenger-temporal.py:143-158 | a prefix of the availability order that is split at the kickoff sums exactly what was available by then |
| `XgSweep.TalliedStrength` | backend/scripts/audit-challenger-temporal.py:146-150 | the running counters give the plain as-of strengths |
| `XgSweep.Advance` | backend/scripts/audit-challenger-temporal.py:152-158 | the inner cursor loop consumes every ready match available at the kickoff and no other |
| `XgSweep.SweepLeague` | backend/scripts/audit-challenger-temporal.py:142-164 | one league: the sweep writes exactly the plain observations, in kickoff order |
| `XgSweep.RecreateXgObservations` | backend/scripts/audit-challenger-temporal.py:138-165 | the sweep over all leagues equals the plain recording of each league |
| `XgSweep.SweepIsComplete` | backend/scripts/audit-challenger-temporal.py:138-165 | with distinct match ids every valid match is recorded with its as-of observation, and nothing else is; what the observation says is `XgEvidence.RecordedMeasures` |
| `XgEvidence.RecordedMeasures` | backend/scripts/audit-challenger-temporal.py:138-165 | what is recorded for a match, from the matches of its league known two hours after their kickoff and published by its own: each figure is divided by x kept between 1/2 and 2, where x times the mean, taken as 0.05 at least, is the opponent figure with five mean games added, per game; attacks by what the opponent concedes, defences by what it scores |
| `XgEvidence.FirstMatchUnadjusted` | backend/scripts/audit-challenger-temporal.py:146-150 | where nothing of the league is known at kickoff the recorded adjusted figures are the raw ones |
| `XgEvidence.ScaleFree` | backend/scripts/audit-challenger-temporal.py:146-150 | multiplying every figure of the history leaves a strength as it was while the mean stays at 0.05 or more |
| `XgEvidence.HarderOpponentCountsMore` | backend/scripts/audit-challenger-temporal.py:160-164 | of two recorded matches alike but for the opponent, the attack counts for less against the one that has conceded more, the defence for less against the one that has scored more |
| `XgEvidence.LeagueNames` | backend/scripts/audit-challenger-temporal.py:67-68 | the aliases of four leagues are brought together, every other name is kept |
| `RomeClock.DayMonotone` | backend/scripts/nightly-schedule-guard.js:8-10 | the Rome calendar day never goes back although the wall clock may |
| `RomeReading.OffsetReads` | backend/scripts/nightly-schedule-guard.js:8-10 | after an even number of changes the offset is that of the start, else the other one: two hours in summer, one in winter; days are the 86 400 000 ms of the local clock |
| `RomeReading.ClockReads` | backend/scripts/nightly-schedule-guard.js:8-10 | what the laws assume of a clock, the European rule and the midnights that are shown once included, as conditions on its changes |
| `RomeClock.NoConsecutiveSkips` | backend/ml/train.py:96-112 | a wall time is never skipped on two days in a row |
| `RomeClock.ResolveForecastAt` | backend/ml/train.py:96-112 | the three-day search always finds the latest instant before kickoff with the scheduled wall time; its error cannot occur |
| `RomeReading.BoundaryReads` | backend/ml/train.py:96-112 | that instant is the last one before kickoff at which the clock shows 3 600 000 times the hour and 60 000 times the minute after midnight |
| `RomeClock.RomeTimeIsLast` | backend/scripts/nightly-schedule-guard.js:15-21 | `romeTime` fails exactly on skipped times and takes the later instant of a repeated one, as the trainer does |
| `RomeClock.PrimaryIsLatestIff` | backend/scripts/nightly-schedule-guard.js:23-28 | the guard reports the latest boundary at or before now exactly when now is not between two occurrences of the boundary of today |
| `RomeReading.PrimaryReads` | backend/scripts/nightly-schedule-guard.js:23-28 | it reports the last instant that shows 03:07 of today, or of yesterday while 03:07 of today is still to come, and fails when one of the two is never shown |
| `RomeClock.TrainerAgreesWithGuard` | backend/scripts/nightly-schedule-guard.js:23-28 | away from a repeated boundary, trainer and guard name the same instant |
| `RomeClock.PrimaryUnderEuropeanRule` | backend/scripts/nightly-schedule-guard.js:23-28 | under the European clock rule the guard never fails on 03:07 and always reports the latest boundary |
| `RomeClock.DayStartCoversIff` | backend/scripts/nightly-schedule-guard.js:15-21 | the start that the guard takes for a day precedes all of the day exactly when the clock does not show its midnight twice |
| `RomeClock.EuropeanMidnight` | backend/scripts/nightly-schedule-guard.js:15-21 | under the European clock rule no midnight is shown twice |
| `NightlyGuard.GuardNightly` | backend/scripts/nightly-schedule-guard.js:77-172 | the guard as one procedure over its answers: gates, listing, scan of runs and jobs, recovery end; each of these is characterised by itself in the rows that follow |
| `NightlyGuard.GateOpensIff` | backend/scripts/nightly-schedule-guard.js:83-105 | the gate opens exactly for a run of today whose flags, identity and trigger agree, from 03:07 on or by early admission; a run counts as early exactly when it carries the flag and 03:07 is still to come |
| `NightlyGuard.GateRefusesIff` | backend/scripts/nightly-schedule-guard.js:98-104 | it refuses a run exactly when it was created on another day, or reads the clock before 03:07 without the flag |
| `NightlyGuard.GateFailsIff` | backend/scripts/nightly-schedule-guard.js:85-105 | each of its failures, in the order of the checks |
| `NightlyRules.LateFlagIdle` | backend/scripts/nightly-schedule-guard.js:95-104 | from 03:07 on the early flag changes no decision |
| `NightlyRules.ListingReads` | backend/scripts/nightly-schedule-guard.js:30-38 | the guard reads its own run first, then the manual runs, the runs of the three crons and those of the cron that meant 03:00, created today by now; it fails on missing times of an early run, a skipped 03:00, more than twelve runs |
| `NightlyRules.ExamineReads` | backend/scripts/nightly-schedule-guard.js:115-156 | the verdict on one run is the first that applies: foreign, incomplete, unusable, already succeeded, at work, or going on, with or without a finished success |
| `NightlyRules.ScanReads` | backend/scripts/nightly-schedule-guard.js:113-156 | the scan ends with the first verdict that stops it, or passes and names the first finished run |
| `NightlyRules.FinishReads` | backend/scripts/nightly-schedule-guard.js:157-171 | an ordinary guard that passes is admitted; a recovery needs a finished run; recovery and early guards read at most twelve active runs |
| `NightlyRules.ActiveReads` | backend/scripts/nightly-schedule-guard.js:160-169 | and they are admitted exactly when none of these is another run; the first that is refuses them, or fails when it cannot be one in progress |
| `NightlyGuard.ReportedSuccessStops` | backend/scripts/nightly-schedule-guard.js:118-149 | a job with a sync and a marker success, among any other steps, either stops the guard or makes it fail, unless its first marker finished before its first sync; recovery and early runs aside |
| `NightlyGuard.RecognisedIff` | backend/scripts/nightly-schedule-guard.js:40-49 | of the jobs that do not make the guard fail, it recognises exactly those with a sync and a marker success that are not out of order in that way |
| `NightlyGuard.OutOfOrderContinues` | backend/scripts/nightly-schedule-guard.js:40-49 | a job with syncs finished at 10 and 5 and a marker at 7 is overlooked |
| `NightlyGuard.RunningStops` | backend/scripts/nightly-schedule-guard.js:154-155 | a running job of another run listed in progress stops the guard |
| `NightlyGuard.PassedMeansAllContinue` | backend/scripts/nightly-schedule-guard.js:114-156 | a scan that passes has let every run continue and names a run whose answer shows a finished success |
| `NightlyGuard.RecoveryAdmission` | backend/scripts/nightly-schedule-guard.js:157-172 | a recovery run is admitted only after the finished success of another run of the day and with nothing else active |
| `NightlySafety.StepKeeps` | backend/scripts/nightly-schedule-guard.js:89-156 | on a clock that shows no midnight twice, every step of any run, guard reads and job progress included, keeps the protocol invariant |
| `NightlySafety.ReachableInv` | backend/scripts/nightly-schedule-guard.js:89-156 | so, on such a clock, it holds in every reachable state |
| `NightlySafety.OrdinaryIff` | backend/scripts/nightly-schedule-guard.js:82-97 | in every such state the guard takes an attempt for ordinary exactly when its run asks for no recovery and does not both ask for early admission and read the clock before 03:07 |
| `NightlySafety.AtMostOneSuccessPerDay` | backend/scripts/nightly-schedule-guard.js:105-156 | on a clock that shows no midnight twice, over every interleaving, at most one attempt of a Rome day completes sync and marker, of all attempts whose run asks for no recovery and does not both ask for early admission and read the clock before 03:07 |
| `NightlySafety.SecondAdmissionNeedsFailure` | backend/scripts/nightly-schedule-guard.js:114-156 | on such a clock, of two admitted attempts of that kind of one day, one has ended without success |
| `NightlySafety.OneSuccessPerRun` | backend/scripts/nightly-schedule-guard.js:113-144 | where the invariant holds, attempts of one run never succeed twice |
| `NightlyReads.AdmittedIffDecided` | backend/scripts/nightly-schedule-guard.js:77-172 | along any reads of a history, the guard of an undisturbed ordinary attempt admits it exactly when the procedure `Decided` does on the same reads; nothing that could still be read reopens a closed guard |
| `NightlyReads.HistoryDecides` | backend/scripts/nightly-schedule-guard.js:77-172 | every history that leaves an ordinary attempt undisturbed has such reads, so its guard ends as the procedure does |
| `NightlyReads.ReadsTrack` | backend/scripts/nightly-schedule-guard.js:89-156 | at every moment the phase of such a guard is what the gate, the listing and the scan make of its reads so far |
| `NightlyProtocol.JobsRead` | backend/scripts/nightly-schedule-guard.js:116-118 | the jobs that a guard reads are one for every attempt of the run, with the steps that have run, and the queued one |
| `NightlyRuns.Admission` | backend/scripts/nightly-schedule-guard.js:77-172 | a guard that nothing opposes can go through to admission |
| `NightlyWitness.SuccessIsReachable` | backend/scripts/nightly-schedule-guard.js:77-172 | a lone manual run at 04:00 goes through and succeeds: the safety results are not empty |
| `NightlyWitness.BackupAfterFailure` | backend/scripts/nightly-schedule-guard.js:77-172 | two ordinary attempts of one day are both admitted: the scheduled one fails, its backup succeeds |
| `NightlyWitness.TwoSuccesses` | backend/scripts/nightly-schedule-guard.js:105-112 | on every clock that shows some midnight twice, two ordinary runs of that day can both succeed |
| `NightlyWitness.MidnightMayRepeat` | backend/scripts/nightly-schedule-guard.js:15-21 | there is such a clock |
| `NightlyWitness.SafeIff` | backend/scripts/nightly-schedule-guard.js:105-156 | so at most one ordinary success per day, over every history, holds of a clock exactly when it shows no midnight twice |
| `TemporalSplits.ChronologicalFolds` | backend/ml/train.py:265-297 | the generator loop yields the folds that pass its size checks, or fails below twelve forecast times |
| `SplitReading.FoldCountReads` | backend/ml/train.py:272 | as many folds as requested, at least one, and at most one for every twelve times |
| `SplitReading.BoundariesRead` | backend/ml/train.py:273-274 | the tests cover the times from seven tenths on to the end, in parts of which no two differ by more than one |
| `SplitReading.CutsRead` | backend/ml/train.py:276-279 | validation takes fifteen hundredths of the times before the test, two at least; the test ends where the next one begins |
| `SplitReading.CalibrationReads` | backend/ml/train.py:286-289 | calibration starts at two thirds of the times of the validation rows |
| `SplitReading.FoldReads` | backend/ml/train.py:280-297 | the groups of a fold as conditions on rows, and the sizes below which it is skipped: five, five, five, three times, two, two |
| `TemporalSplits.BoundariesIncrease` | backend/ml/train.py:274-278 | evenly spaced test boundaries are strictly increasing indices |
| `TemporalSplits.FoldMembers` | backend/ml/train.py:278-296 | membership of the four groups of a fold as conditions on one row |
| `TemporalSplits.GeneratedLeakFree` | backend/ml/train.py:277-297 | every generated fold is free of leaks, so the raise of the manifest is unreachable on it |
| `TemporalSplits.ManifestOkIff` | backend/ml/train.py:469-481 | the check between neighbouring parts succeeds exactly when no part leaks into any later one |
| `SplitReading.ManifestReads` | backend/ml/train.py:469-481 | a manifest records of every part its size, its first and last forecast, its last label and all its match ids in order |
| `TemporalSplits.LeakFreeDisjoint` | backend/ml/train.py:469-481 | leak-free parts share no row |
| `TemporalSplits.FoldsAdvance` | backend/ml/train.py:276-284 | test windows of later folds lie later, and training sets grow by inclusion |
| `TemporalSplits.GeneratorYields` | backend/ml/train.py:277-297 | the yielded list holds generated folds in increasing order |
| `FrozenSplits.CheckedSplitPlan` | backend/ml/train.py:300-330 | the plan checker accepts exactly the plans of one to eight sound, separated, advancing folds, and reports the first failing check |
| `SplitReading.AcceptedReads` | backend/ml/train.py:300-330 | what an accepted plan declares, part by part |
| `SplitReading.ProblemReads` | backend/ml/train.py:306-328 | which of its errors a fold causes |
| `SplitReading.PlanFailsOnce` | backend/ml/train.py:300-330 | a refused plan has one error |
| `FrozenSplits.FixedWindowFolds` | backend/ml/train.py:333-346 | the generator yields the window groups of the folds of an accepted plan in order and stops at the first fold with an empty group, naming its first empty part; a refused plan yields nothing and the error of the checker |
| `SplitReading.EmptyOnce` | backend/ml/train.py:338-345 | the part that a failure names has no row, and only one part is the first such |
| `FrozenSplits.FrozenLeakFree` | backend/ml/train.py:338-350 | on any rows, groups of an accepted plan are leak-free: the manifest check never fires |
| `FrozenSplits.FrozenTestsAdvance` | backend/ml/train.py:327-329 | test groups of an accepted plan never meet |
| `SplitReplay.RecordedAcceptedIff` | backend/ml/train.py:300-356 | the manifests of generated folds are an accepted plan exactly when there are one to eight of them |
| `SplitReplay.ReplayKeepsGroups` | backend/ml/train.py:333-356 | replay on the same rows gives back selection, calibration and test |
| `SplitReplay.ReplayTrain` | backend/ml/train.py:333-356 | training gains exactly the rows inside its own window whose labels became known between the validation cut and the first selection forecast, and all groups stay leak-free |
| `SeasonWindows.CheckedRows` | backend/scripts/plan-challenger-seasons.py:72-114 | succeeds exactly on an authentic header, distinct ids and rows without a problem, and returns the rows sorted by forecast and id; otherwise the error is that of the first failing check: no rows, header, first bad row |
| `SeasonReading.HeaderReads` | backend/scripts/plan-challenger-seasons.py:75-90 | what an accepted header says, and which error a refused one causes |
| `SeasonReading.RowReads` | backend/scripts/plan-challenger-seasons.py:96-113 | the first thing that is wrong with a row |
| `SeasonReading.CheckedReads` | backend/scripts/plan-challenger-seasons.py:94-114 | sound rows as conditions on rows: distinct ids, two hours to the label, history before the forecast, the season of the kickoff |
| `SeasonWindows.UsedAreKept` | backend/scripts/plan-challenger-seasons.py:117-121 | with distinct ids, purging by id keeps exactly the rows whose labels are known before the next window |
| `SeasonWindows.PartsFollow` | backend/scripts/plan-challenger-seasons.py:181-184 | the calendar windows of a fold follow one another and test windows leave no gap |
| `SeasonReading.FoldDates` | backend/scripts/plan-challenger-seasons.py:178-184 | the calendar of the six folds in days since 1970 |
| `SeasonReading.SeasonBounds` | backend/scripts/plan-challenger-seasons.py:110-111 | a season runs from July to the next July |
| `SeasonReading.SeasonDates` | backend/scripts/plan-challenger-seasons.py:110-111 | the three target seasons from July to July, in days since 1970 |
| `Calendar.MonthLengths` | backend/scripts/plan-challenger-seasons.py:180-181 | months have the lengths of the Gregorian calendar, counted from 1970 |
| `SeasonReading.PartReads` | backend/scripts/plan-challenger-seasons.py:117-121 | the rows of a part as a condition on one row |
| `SeasonReading.PlannedReads` | backend/scripts/plan-challenger-seasons.py:124-127 | a part declares its number of rows, its bounds up to the last millisecond and the last time of a label |
| `SeasonWindows.TestWindowsTile` | backend/scripts/plan-challenger-seasons.py:178-184 | the six test windows tile July 2023 to July 2026: every instant lies in exactly one |
| `SeasonWindows.ValidateWindows` | backend/scripts/plan-challenger-seasons.py:130-146 | the planner check of its windows with its running test end |
| `SeasonReading.WindowsRead` | backend/scripts/plan-challenger-seasons.py:130-146 | what valid windows are, fold by fold |
| `SeasonWindows.PlannedWindowsValid` | backend/scripts/plan-challenger-seasons.py:130-146 | none of its raises can fire on planned windows |
| `SeasonPlan.PlanWindows` | backend/scripts/plan-challenger-seasons.py:181-194 | the four windows of one test block: found exactly when none is empty and every test row is of the season |
| `SeasonPlan.BuildPlan` | backend/scripts/plan-challenger-seasons.py:172-198 | a plan is returned exactly when header and rows pass, no window is empty and every forecast lies in the target season of its kickoff; otherwise the error is the first that the checks, the windows in order and the coverage give |
| `SeasonPlan.BuildFailsOnce` | backend/scripts/plan-challenger-seasons.py:172-198 | a dataset that cannot be planned has one error |
| `SeasonPlan.CoverageIff` | backend/scripts/plan-challenger-seasons.py:195-198 | the test ids are distinct and cover the eligible ids exactly when every target row is forecast in some test window |
| `SeasonPlan.SeasonsAgreeIff` | backend/scripts/plan-challenger-seasons.py:189-198 | the season and coverage checks together are one condition on single rows |
| `SeasonRoundTrip.PlanAccepted` | backend/ml/train.py:300-330 | the plan checker of the trainer accepts every plan that the planner returns |
| `SeasonRoundTrip.RoundTripIff` | backend/ml/train.py:333-346 | the generator selects in a part exactly the planned rows unless a usable row is forecast in the last millisecond of the part |
| `SeasonRoundTrip.EarlierPartsExact` | backend/scripts/plan-challenger-seasons.py:117-128 | in train, selection and calibration the selected rows are always the planned ones, because labels follow by two hours |
| `SeasonWitness.LateRowIsLost` | backend/scripts/plan-challenger-seasons.py:117-128 | a dataset that can be planned and whose replay loses a test row of the last millisecond |
| `SeasonRoundTrip.PlanAndReplay` | backend/scripts/plan-challenger-seasons.py:172-198 | planner, checker and generator in sequence: for millisecond timestamps the groups are the planned rows |
| `OperationalReset.ReferencesKept` | backend/scripts/reset-challenger-history.js:95-100 | after every delete but the last, all declared references hold |
| `OperationalReset.SurvivorsClosed` | backend/scripts/reset-challenger-history.js:77-85 | through a covered key a surviving row refers only to surviving rows |
| `OperationalReset.ReferencesAtEndIff` | backend/scripts/reset-challenger-history.js:95-100 | after the last delete they hold exactly when no surviving bet had an origin decision of the challenger |
| `OperationalReset.PopulationKeptIff` | backend/scripts/reset-challenger-history.js:49-54 | a preserved population is row for row unchanged; for a child table, exactly when SQL leaves no row of it unknown |
| `OperationalReset.PreservedKeptIff` | backend/scripts/reset-challenger-history.js:108-109 | the comparison of protected data succeeds exactly when no child row is unknown |
| `OperationalReset.SecondInspection` | backend/scripts/reset-challenger-history.js:107 | the second inspection can only find a broken reference |
| `OperationalReset.SingleOpening` | backend/scripts/reset-challenger-history.js:101-105 | the challenger portfolio ends with the one opening row: 100000 available, 0 committed |
| `OperationalOutcome.OpeningIsLast` | backend/scripts/reset-challenger-history.js:99-102 | the ledger ends with one row of shadow_C: open:shadow_C, event OPEN, 100000 and 0 cents, the time of the reset, no bet |
| `OperationalOutcome.ResetLeaves` | backend/scripts/reset-challenger-history.js:95-102 | table by table, the rows that stay, in their order: gone are all paired forecasts with their results, the rows of C, what refers to them by its key, the archive rows of C and the ledger rows of shadow_C |
| `OperationalOutcome.ProblemReads` | backend/scripts/reset-challenger-history.js:55-85 | the first thing an inspection objects to |
| `OperationalOutcome.InspectReads` | backend/scripts/reset-challenger-history.js:46-48 | what an inspection reports of the tables |
| `OperationalOutcome.GuardsRead` | backend/scripts/reset-challenger-history.js:75-76 | the triggers that are lifted |
| `OperationalOutcome.PreservedReads` | backend/scripts/reset-challenger-history.js:49-54 | the rows that are compared before and after, table by table |
| `OperationalStore.StepAdvances` | backend/scripts/reset-challenger-history.js:95-100 | a delete whose condition reads the tables of the moment removes what it would have removed at the start |
| `OperationalStore.FinalReferencesIff` | backend/scripts/reset-challenger-history.js:106 | the reference check after the insert succeeds exactly when origins agree and the portfolio exists |
| `OperationalStore.Store.Delete` | backend/scripts/reset-challenger-history.js:95-100 | one delete under triggers and, where enforced, references |
| `OperationalStore.BlockedReads` | backend/scripts/reset-challenger-history.js:75-76 | a delete is aborted exactly when a before-delete trigger is on its table and a row would go |
| `OperationalStore.GuardsSoundReads` | backend/scripts/reset-challenger-history.js:91-92 | triggers are lifted whose names are ASCII letters, digits and underscores and whose text is not empty |
| `OperationalStore.Store.Open` | backend/scripts/reset-challenger-history.js:101-102 | the insert of the opening row under the unique keys of the ledger; a ledger that has its opening refuses another one |
| `OperationalStore.ConflictIs` | backend/scripts/reset-challenger-history.js:101-102 | refused are its id and a second opening of its portfolio |
| `OperationalStore.Store.DeleteAll` | backend/scripts/reset-challenger-history.js:95-100 | the ordered deletes fail exactly on the uncovered origin decisions |
| `OperationalStore.Store.Reset` | backend/scripts/reset-challenger-history.js:88-111 | the whole reset: exactly when it succeeds, its final contents, the single opening row in its cents, its event and its time, restored triggers, and the errors that cannot occur |
| `OperationalGaps.AuthorizedOriginsAgree` | backend/migrations/029_funded_model_bets.sql:39-62 | with the insert triggers in force the cross-family checks do cover origin decisions |
| `OperationalGaps.CrossedOriginPasses` | backend/scripts/reset-challenger-history.js:77-85 | contents that the inspection accepts and whose reset would orphan a bet |
| `OperationalGaps.UnknownIff` | backend/scripts/reset-challenger-history.js:50-51 | when a child row is neither deleted nor counted as preserved |
| `OperationalGaps.NothingUnknownWithoutNulls` | backend/scripts/reset-challenger-history.js:50-51 | without NULL ids and keys no row is unknown |
| `OperationalGaps.NullKeyFails` | backend/scripts/reset-challenger-history.js:50-51 | contents with a NULL key that the inspection accepts and on which only the comparison of protected data fails |
| `OperationalGaps.TakenIdFails` | backend/scripts/reset-challenger-history.js:101-102 | contents that the inspection accepts and in which another portfolio has the id of the opening row |
| `CsvSeed.Transaction.Execute` | backend/scripts/seed-nightly-csv-cache.js:120-137 | the transaction: recheck, one attempt and five snapshots, or nothing |
| `CsvReading.InsertReads` | backend/scripts/seed-nightly-csv-cache.js:128-133 | what a write adds: one attempt finished at the time of the capture, and under it the five files of the five leagues in order, with their hashes |
| `CsvReading.DecideReads` | backend/scripts/seed-nightly-csv-cache.js:85-95 | a run inserts when nothing was asked for its season and time, leaves the cache when one successful attempt holds exactly the five files, and conflicts with anything else |
| `CsvReading.ApprovalReads` | backend/scripts/seed-nightly-csv-cache.js:113-117 | an insert needs the approved plan of that insert; a capture that is present may have been planned either way |
| `CsvReading.InspectedReads` | backend/scripts/seed-nightly-csv-cache.js:111-119 | after the first inspection a planning run ends with its plan, an approved run ends where its capture is present and goes on to write where nothing was asked; any other fails |
| `CsvSeedProtocol.StepKeeps` | backend/scripts/seed-nightly-csv-cache.js:111-137 | every read, transaction and failure of any run keeps the invariant |
| `CsvSeedProtocol.AtMostOneInsert` | backend/scripts/seed-nightly-csv-cache.js:120-135 | of all runs with one season and acquisition time at most one writes |
| `CsvSeedProtocol.OneAttemptFiveSnapshots` | backend/scripts/seed-nightly-csv-cache.js:85-95 | once a run has completed, exactly one run has written, and the cache holds its one attempt and five snapshots |
| `CsvSeedProtocol.SameCaptureFound` | backend/scripts/seed-nightly-csv-cache.js:111-126 | a later approved run of the same capture finds it and writes nothing |
| `CsvSeedProtocol.DifferentCaptureConflicts` | backend/scripts/seed-nightly-csv-cache.js:85-95 | a different capture under the same key is a conflict |
| `CsvSeedProtocol.NeverOverwritten` | backend/scripts/seed-nightly-csv-cache.js:127-135 | no step removes or changes stored attempts and snapshots |
| `CsvSeedProtocol.RaceReachable` | backend/scripts/seed-nightly-csv-cache.js:111-137 | two runs that both plan the insert: one writes, the other finds it present |
| `ResultMonitoring.LatestIsLatest` | backend/scripts/model-a-prospective-result-monitoring.js:5-14 | the stored row of a key is one that no other row of the key is later than |
| `ResultOutcome.LatestIsNewest` | backend/scripts/model-a-prospective-result-monitoring.js:5-14 | and it was observed last, of those recorded last, of those with the greatest evidence id |
| `ResultMonitoring.LatestOrderIndependent` | backend/scripts/model-a-prospective-result-monitoring.js:5-14 | with distinct evidence ids the latest rows do not depend on the reading order |
| `ResultMonitoring.MeasureResults` | backend/scripts/model-a-prospective-result-monitoring.js:7-44 | the whole measurement, its collecting loops included, equals its definition on the latest rows: counts, pending forecasts and the oldest of them, lifecycle counters and the last observed time |
| `ResultOutcome.MeasuredReports` | backend/scripts/model-a-prospective-result-monitoring.js:15-37 | with distinct evidence ids, from the stored rows: linked are the forecasts of fixtures that are not taken out, have a result, and whose last observation, if any, is final, not newer and of the same goals; pending are the others that have kicked off and are not taken out; the invalidated finals are the observed ones that do not stand |
| `ResultOutcome.LifecycleReads` | backend/scripts/model-a-prospective-result-monitoring.js:25-31 | statuses, reasons and the last observed time are those of the last observations of forecast fixtures |
| `ResultOutcome.CalendarFigures` | backend/scripts/model-a-prospective-result-monitoring.js:39-43 | results of the calendar that were never forecast, forecasts of no calendar row, calendar rows that are taken out |
| `ResultMonitoring.CountLifecycle` | backend/scripts/model-a-prospective-result-monitoring.js:25-36 | the counting loop gives the counts by status and reason and the last observed time, in whatever order the map is read |
| `ResultMonitoring.MeasuredOrderIndependent` | backend/scripts/model-a-prospective-result-monitoring.js:7-44 | the whole report is the same for any order of results and observations |
| `ResultMonitoring.PastSplitsIff` | backend/scripts/model-a-prospective-result-monitoring.js:17-37 | linked, pending and excluded forecasts make up the past ones exactly when no later fixture is linked |
| `ResultMonitoring.AdmittedSplit` | backend/scripts/model-a-prospective-inspect.js:436-455 | with the evidence that the inspection admits the split is exact |
| `ResultMonitoring.AdmitFinals` | backend/scripts/model-a-prospective-inspect.js:434-441 | the admission loop keeps exactly the valid rows known by the cutoff and counts the invalid ones |
| `ResultOutcome.AdmittedAreKnown` | backend/scripts/model-a-prospective-inspect.js:434-441 | exactly the rows that can be read, observed after kickoff, recorded no earlier and by the cutoff, with goals |
| `ResultMonitoring.CountersSum` | backend/scripts/model-a-prospective-result-monitoring.js:25-36 | status, reason and invalidation counters sum to their totals |
| `Coverage.SelectForecasts` | backend/scripts/model-a-prospective-inspect.js:285-292 | the selection loop: the earliest forecast in its window for each fixture, with conflicts and outsiders counted |
| `CoverageReading.WindowsRead` | backend/scripts/model-a-prospective-inspect.js:268-272 | overdue from one hour before kickoff, open from 24 hours before |
| `CoverageReading.ScopeReads` | backend/scripts/model-a-prospective-inspect.js:262-266 | the last calendar row of a match dated in the interval decides its kickoff |
| `CoverageReading.SelectionReads` | backend/scripts/model-a-prospective-inspect.js:285-292 | a fixture has a selected forecast exactly when one was made from 24 hours to one hour before its kickoff; it is the earliest of these, with the least id |
| `CoverageReading.SetAsideReads` | backend/scripts/model-a-prospective-inspect.js:288-289 | conflicts name another kickoff than the calendar, outsiders the same one at another time |
| `Coverage.MeasureCoverage` | backend/scripts/model-a-prospective-inspect.js:240-314 | the whole first report from calendar, stored rows and spool: windows, missing, received, recorded, pending, conflicting and outside forecasts, classes and provenance reasons; nothing without a calendar, only the calendar without readable forecasts |
| `CoverageReading.IdentitiesRead` | backend/scripts/model-a-prospective-inspect.js:306-312 | received forecasts are counted by id over stored and pending ones, recorded ones singly, their matches by match |
| `Coverage.RecordedSplit` | backend/scripts/model-a-prospective-inspect.js:285-310 | in every first report, recorded forecasts are conflicts, outsiders and usable ones, the latter at least as many as the fixtures with a forecast in the window |
| `Coverage.FixturesSplit` | backend/scripts/model-a-prospective-inspect.js:285-297 | fixtures with a forecast in the window and fixtures that miss one make up the overdue and open ones |
| `CoverageReading.RecordedReads` | backend/scripts/model-a-prospective-inspect.js:285-290 | a fixture is recorded when some forecast names its kickoff and was made in its window |
| `Coverage.ReceivedIff` | backend/scripts/model-a-prospective-inspect.js:285-311 | with distinct ids, received is recorded plus unconfirmed exactly when no pending forecast of the scope is stored outside it |
| `Coverage.ClassifySelected` | backend/scripts/model-a-prospective-inspect.js:298-305 | the provenance loop counts classes and issues of the selected forecasts in any order |
| `CoverageReading.EvaluableIff` | backend/scripts/model-a-prospective-inspect.js:299-304 | a selected forecast can be evaluated exactly when its snapshot matches, nothing marks it technical, its input time is given and no time is after the forecast |
| `CoverageReading.IssueReads` | backend/scripts/model-a-prospective-inspect.js:299-304 | otherwise which reason it counts for |
| `CoverageReading.ProvenanceReads` | backend/scripts/model-a-prospective-inspect.js:298-314 | every reason and every class is reported with the number of selected forecasts that it applies to, and no other one |
| `Coverage.ProvenanceSums` | backend/scripts/model-a-prospective-inspect.js:298-305 | classes sum to the selected forecasts, reasons to the non-evaluable ones |
| `Coverage.Recount` | backend/scripts/model-a-prospective-inspect.js:475-489 | the second count, over the rows that are not excluded and all parsed forecasts |
| `Coverage.InspectCoverage` | backend/scripts/model-a-prospective-inspect.js:472-489 | first report and second count in sequence: only the missing forecasts are replaced, and both windows reconcile with the first report through replaced and excluded rows; without exclusions and duplicates they are equal |
| `Coverage.LoadedRecorded` | backend/scripts/model-a-prospective-inspect.js:277-290 | the forecasts cut at the cutoff and all parsed ones record the same fixtures |
| `Coverage.CountsDiffer` | backend/scripts/model-a-prospective-inspect.js:475-489 | the first count over loaded forecasts and the second over parsed ones differ by the excluded fixtures without a usable forecast and by rows that the map replaced |
| `Coverage.CountsAgree` | backend/scripts/model-a-prospective-inspect.js:475-489 | with one row for each match, they differ by the excluded fixtures alone; without exclusions they agree |
| `Coverage.CountsAgreeIff` | backend/scripts/model-a-prospective-inspect.js:475-489 | they differ by the excluded fixtures alone exactly when no replaced row of the window lacks a usable forecast |
| `Coverage.DuplicateRowsDisagree` | backend/scripts/model-a-prospective-inspect.js:475-489 | two calendar rows of one match, possible without the primary key of the program, make them disagree |
| `Coverage.WindowsPartition` | backend/scripts/model-a-prospective-inspect.js:267-272 | overdue, open and future fixtures make up the scope |
| `SqlStatements.Statements` | backend/scripts/restore-turso-backup.py:10-24 | reading any division of the dump into lines gives the character-by-character scan |
| `SqlStatements.ScanDivides` | backend/scripts/restore-turso-backup.py:10-24 | the scan is lossless, and every statement is the shortest complete prefix of what follows the one before |
| `SqlStatements.DivisionUnique` | backend/scripts/restore-turso-backup.py:10-24 | there is only one such division of a text |
| `SqlStatements.ReadTwice` | backend/scripts/restore-turso-backup.py:13-22 | two divisions of one text into lines give the same statements and the same verdict |
| `BlockBootstrap.GroupBlocks` | backend/scripts/model-a-prospective-statistics.js:53-59 | the grouping loop gives the totals of each league and week in key order |
| `BootstrapReading.BlockReads` | backend/scripts/model-a-prospective-statistics.js:53-58 | a block holds the observations of one league and one week, when no league has a bar in its name |
| `BlockBootstrap.BlockBootstrap` | backend/scripts/model-a-prospective-statistics.js:52-80 | the bootstrap: replicas of drawn blocks, sorted, with the 2.5 and 97.5 percentiles |
| `BootstrapReading.PickReads` | backend/scripts/model-a-prospective-statistics.js:71 | of k blocks the i-th is drawn for the numbers from i / k up to (i + 1) / k |
| `BootstrapReading.ReplicaReads` | backend/scripts/model-a-prospective-statistics.js:68-75 | two thousand replicas; each times its observations is the sum of the scores drawn |
| `BootstrapReading.IntervalReads` | backend/scripts/model-a-prospective-statistics.js:46-49 | the limits lie at the places 49.975 and 1949.025 of the sorted replicas |
| `BlockBootstrap.PercentileMonotone` | backend/scripts/model-a-prospective-statistics.js:46-49 | percentiles stay within the sample and increase with the level |
| `BlockBootstrap.BetweenBlockMeans` | backend/scripts/model-a-prospective-statistics.js:52-80 | of any observations and any draws: every replica, both ends of the interval in order, and the reported mean difference lie between the smallest and the largest block mean |
| `BlockBootstrap.BlocksCounted` | backend/scripts/model-a-prospective-statistics.js:53-59 | no block is empty, so every block has a mean |
| `BlockBootstrap.TotalsSplit` | backend/scripts/model-a-prospective-statistics.js:53-62 | the blocks hold every observation once: totals over one more key add its block |
| `CalibrationError.Calculate` | backend/scripts/audit-challenger-metrics.py:92-120 | log loss, Brier, accuracy, expected calibration error, the table of ten bins, leagues and weeks of the rows of a variant; otherwise the problem of the first bad row, or a row without a UTC week |
| `CalibrationReading.RowScoredIff` | backend/scripts/audit-challenger-metrics.py:76-89 | which rows are scored, and what is wrong with the others |
| `CalibrationReading.EntryReads` | backend/scripts/audit-challenger-metrics.py:100-106 | confidence, hit, clamped log loss and Brier score of a row, by which side scored more |
| `CalibrationReading.TableReads` | backend/scripts/audit-challenger-metrics.py:107-113 | line k of the table holds the rows with confidence from k tenths up to the next tenth, their mean confidence and their share of hits |
| `CalibrationReading.TotalsRead` | backend/scripts/audit-challenger-metrics.py:114-117 | mean log loss, mean Brier score and share of hits over all rows |
| `CalibrationReading.WeekIsMonday` | backend/scripts/audit-challenger-metrics.py:69-73 | weeks are named by their Monday |
| `CalibrationReading.CalculatedOnce` | backend/scripts/audit-challenger-metrics.py:92-120 | the rows leave one result: one report, or one first problem |
| `CalibrationError.TermIsGap` | backend/scripts/audit-challenger-metrics.py:116-117 | the weighted gap of a bin is the gap of its sums over n |
| `CalibrationError.ErrorBounds` | backend/scripts/audit-challenger-metrics.py:116-117 | of all scorable rows, the calibration error is at least the gap between mean confidence and accuracy, and at most 1 |
| `CalibrationError.BrierBoundsAccuracy` | backend/scripts/audit-challenger-metrics.py:99-113 | a miss costs at least half a point: the accuracy is at least one minus twice the Brier score |
| `CalibrationError.LossBounds` | backend/scripts/audit-challenger-metrics.py:102-111 | the log loss lies between 0 and that of the clamp |
| `FeatureMasks.ChronologicalReducedMasks` | backend/ml/diagnose.py:99-112 | the loops over folds, groups, names and evidence give each fold the sorted indices of the plain rules; a KeyError exactly when a fold selects an undeclared group |
| `FeatureMasks.GroupStableIff` | backend/ml/diagnose.py:104-107 | a group is stable in the first fold with a positive gain, in a later one with two among its own and the earlier gains and a positive sum of these |
| `FeatureMasks.FeatureStableIff` | backend/ml/diagnose.py:109-110 | a feature with one, or two, results of its own or earlier folds whose interval lies above zero |
| `FeatureMasks.AlwaysKeptIff` | backend/ml/diagnose.py:102 | features named lambda_ or league_ are always kept |
| `FeatureMasks.ListedOnce` | backend/ml/diagnose.py:108-111 | a set of indices has one sorted list |
| `FeatureMasks.MasksCausal` | backend/ml/diagnose.py:99-112 | the masks of a fold do not depend on evidence of later folds |
| `FeatureMasks.LaterFoldsKeepMasks` | backend/ml/diagnose.py:104-111 | appending the results of later folds keeps the masks of every earlier one |
| `FeatureMasks.BaseKept` | backend/ml/diagnose.py:102-111 | basic, lambda and league features are in every mask |

## Left out

- CatBoost fitting, export and prediction, temperature powers and softmax: corrected vectors are arbitrary positive
  triples.
- Floating-point rounding: probabilities are exact reals, and `np.linspace` and `int(n * 0.7)` are floor divisions
  with the bounds that the proofs need.
- `development_folds` and `protected_development_rows`: the same purging argument as the chronological generator.
- `isotonic_profile` and `calibration_variants`: they only collect the inputs of the modelled fit.
- `check_nightly_decision_time` and `nightly_decision_schedule`: field comparisons around the modelled search.
- GitHub transport, retries and paging: the guard gets complete answers. A listing that is incomplete makes the code
  raise, which is the step in which a guard gives up.
- Run cancellation between two steps of one attempt is an attempt that ends without success.
- FrozenSplits.CheckedSplitPlan: hash syntax and timestamp syntax are one flag and an absent value for each interval.
- TemporalSplits.ChronologicalFolds: the fold numbers are natural numbers; a requested count below one is raised to one.
- SeasonWindows.CheckedRows: the season text is read into its first year, membership in the protected and quarantined
  lists and the policy marks of a row are flags, and times that cannot be read raise before the model begins.
- `source_audit` and the summary that `build_plan` prints around the plan.
- OperationalStore.Store.Reset: the triggers are dropped and created again in one step each; the content of a paired
  forecast and the registration of its models are two flags; references into tables that the reset never touches,
  other than the portfolios, are left out because deletes of referring rows cannot break them.
- Shared archives, backups and the command line around the reset, which are in other scripts.
- CsvSeed.Transaction.Execute: times are instants, so two spellings of one instant are one key; receipt, file and CSV
  syntax checks come before the modelled part. A future acquisition time is a failure of the run.
- ResultMonitoring.MeasureResults: times are instants, not texts.
- ResultMonitoring.AdmitFinals: the filter by calendar and competition that follows the admission is not modelled.
- Coverage.MeasureCoverage: parsing of forecasts, hash and class of a payload are fields of its record, and match ids
  are texts: a numeric id in one table and a text in another would be told apart by the first count and not by the
  second.
- NightlyReads.AdmittedIffDecided: recovery and early runs read the active runs once more before admission; that read is
  in the procedure and is a possible refusal in the state machine.
- CalibrationError.Calculate: the logarithm is a parameter, of which the bound uses that it is monotone and 0 at 1.
- SqlStatements.Statements: what SQLite takes for a complete statement and what stripping removes are parameters.
- BlockBootstrap.BlockBootstrap: the draws are any values in [0, 1); the generator behind them is not modelled.
- `summarize` and the other parts of the metrics audit around `calculate`.
- Alert texts, report and Markdown rendering, argument parsing, workflow files, and the scripts that call services whose
  code decides.
