# CGPBP experiment harness: scorer and driver, in Dafny

This project models `cgpbp/main.c`, the experiment harness that compares two
training regimes for Cartesian Genetic Programming networks with
backpropagation: CGPBP-IN and CGPBP-OUT.

The model has two parts.

- **`Scoring`** (`scoring.dfy`) models the scorer `accuracy`.
  - It checks that the chromosome's input and output arities match the data set's. A mismatch ends the process.
  - For each sample, the predicted class is the first output index with the strictly greatest value.
  - The true class is the last target index holding 1.0, or 0 when no target holds 1.0.
  - It counts the samples where the two classes agree and returns minus that count divided by the number of samples.
  - The method `Accuracy` keeps the source's nested loops. It is proved equal to the function `AccuracyOf`, and the lemmas are proved about that function.
- **`Driver`** (`driver.dfy`) models the control skeleton of `main` as the class `Experiment`.
  - The class holds the two result ledgers (IN and OUT), the shuffle history of the main data set, and the start coordinates.
  - The constructor is the startup probe: a fresh start or a resume.
  - The methods are the two loops over the 3 runs × 10 folds grid, one cell of that grid, and one training-plus-scoring step.
  - Each method is proved equal to a functional specification: `CellStep`, `RunFolds` and `RunFrom`.
- **`DriverProperties`** (`driver_properties.dfy`) states what those functions do to the ledgers:
  - which cells run, and in what order;
  - when the IN regime runs;
  - what each record holds;
  - what a process that stops part-way leaves behind, and how a resumed process completes the ledgers;
  - the seeds;
  - the range of every recorded accuracy.

The training library behind `cgpbplib.h` is not part of this model. It enters only as the function-typed fields of the datatype `Driver.Library`:

- shuffling (the seed `shuffleData` leaves behind);
- the partition draw (the seed `getIndex` leaves behind);
- the two trainers, each followed by `setChromosomeFitness`/`getChromosomeFitness`;
- the testing fold.

A trainer receives a `Driver.Setting`: the shuffle history, the testing fold index and the run seed before `getIndex`. Those are the inputs that decide which data it sees. A chromosome enters the scorer as its arities plus a function giving output node j after executing on an input row.

Two behaviours of the code worth noting:

- The resume prompt reads each value with `fgets` into a 10-byte buffer and converts it with `strtol`, which yields 0 for text that is not a number. It exits only on end of input. The model therefore accepts any start coordinates the prompt can deliver (`Driver.Typable`: the buffer keeps at most 8 characters).
- On an empty data set, the code computes `-0 / 0.0`, which is NaN. The model returns `Returned(NaN)`.

## Model

| member | source | states |
|---|---|---|
| Scoring.Negate | cgpbp/main.c:165-187 | A ledger value is minus the returned accuracy: NaN stays NaN, and a number's negation adds to it to zero. |
| Scoring.PredictedPrefixIsFirstMax | cgpbp/main.c:267-279 | After scanning n > 0 outputs, the argmax loop holds the lowest index of the maximum of those n outputs. |
| Scoring.PredictedClassIsFirstMax | cgpbp/main.c:267-279 | The predicted class is k iff k is the lowest index attaining the maximum output (ties go to the first index), or there are no outputs and k = 0. |
| Scoring.TrueClassPrefix | cgpbp/main.c:269-284 | After scanning n targets, the true-class loop holds the last index among them whose target is 1.0, or 0 when there is none. |
| Scoring.TrueClassIsLastOne | cgpbp/main.c:269-284 | The true class is k iff k is the last index whose target equals 1.0, or no target equals 1.0 and k = 0. |
| Scoring.NoOneTargetMeansClassZero | cgpbp/main.c:269-290 | A sample with no 1.0 target counts as correct exactly when its predicted class is 0. |
| Scoring.ClassifySample | cgpbp/main.c:265-285 | The inner loop over the output nodes yields the first-max predicted class and the last-1.0 true class of one sample. |
| Scoring.Accuracy | cgpbp/main.c:244-294 | The scorer's result equals AccuracyOf: exit on an input-arity mismatch, then on an output-arity mismatch; otherwise NaN for no samples, else minus the number of hits over the number of samples. |
| Scoring.AccuracyTerminatesIffArityDiffers | cgpbp/main.c:249-261 | The scorer ends the process iff an arity differs, and it reports the input check whenever the input arity differs, since that check comes first. |
| Scoring.AccuracyNaNIffEmpty | cgpbp/main.c:263-293 | The scorer returns NaN exactly when the arities match and the data set has no samples. |
| Scoring.CountHitsIsHitSetSize | cgpbp/main.c:263-291 | The loop's counter equals the number of samples whose predicted class equals their true class. |
| Scoring.AccuracyIsMinusHitFraction | cgpbp/main.c:287-293 | With matching arities and at least one sample, the score is minus the size of the set of correctly classified samples over the number of samples. |
| Scoring.AccuracyInRange | cgpbp/main.c:293 | Every number the scorer returns lies in [-1, 0]. |
| Scoring.CountHitsAll | cgpbp/main.c:287-290 | The counter reaches n exactly when each of the first n samples is classified correctly. |
| Scoring.PerfectScoreIffAllHit | cgpbp/main.c:263-293 | The score is -1 exactly when there is at least one sample and every sample is classified correctly. |
| Scoring.ArgmaxMatchingOneHotScoresMinusOne | cgpbp/main.c:267-293 | When every sample's first-max output index is the class of its one-hot target, the score is -1. |
| Scoring.ExactOutputsScoreMinusOne | cgpbp/main.c:267-293 | A chromosome whose outputs reproduce every 0/1 one-hot target scores -1. |
| Driver.Seed | cgpbp/main.c:124-150 | Seeds are C `unsigned int`: the result lies in [0, 2^32), differs from the `int` expression by a multiple of 2^32, and equals it when it is already in range. |
| Driver.Experiment.constructor | cgpbp/main.c:66-113 | If either ledger fails to open, both become a lone header and the start is (0, 0, run_both = 1). Otherwise both keep their contents and the typed start is used. |
| Driver.Experiment.Evaluate | cgpbp/main.c:158-183 | One regime: train, take the test MSE, and score the chromosome on the testing fold. |
| Driver.Experiment.RunCell | cgpbp/main.c:133-192 | One cell updates the ledgers, run seed, run_both and the exit flag exactly as CellStep. |
| Driver.Experiment.RunFoldsOf | cgpbp/main.c:129-205 | The inner loop updates the state exactly as RunFolds: cells (i, j), ..., (i, 9), stopping at the first exit. |
| Driver.Experiment.Run | cgpbp/main.c:120-222 | Both loops leave the ledgers and the shuffle history exactly as RunFrom from the start coordinates; `finished` says the process was not ended by the scorer. |
| DriverProperties.CellsOfRunShape | cgpbp/main.c:129 | Run i from fold j visits the 10 - j cells (i, j), (i, j+1), ..., (i, 9), or none when j ≥ 10. |
| DriverProperties.ScheduleMembers | cgpbp/main.c:120-208 | The cells visited from (i_begin, j_begin) are exactly those with i_begin ≤ i < 3 and j < 10, where j ≥ j_begin in run i_begin and j ≥ 0 in later runs. |
| DriverProperties.ScheduleSorted | cgpbp/main.c:120-208 | Cells are visited in strictly increasing lexicographic order, so no cell is visited twice. |
| DriverProperties.FullScheduleSize | cgpbp/main.c:120-129 | A fresh experiment visits 30 cells. |
| DriverProperties.ScheduleSuffix | cgpbp/main.c:120-208 | The schedule from its k-th cell on is the schedule started at that cell. This is what makes resuming at a cell meaningful. |
| DriverProperties.HaltingCell | cgpbp/main.c:152-187 | In the cell where the scorer ends the process, OUT gains nothing; IN gains nothing or, only when run_both = 1, that cell's record. |
| DriverProperties.RanCell | cgpbp/main.c:152-187 | One cell runs that cell in the sense of Ran: if the process survives, OUT gains exactly that cell's record and IN gains it iff run_both = 1, no header added, and run_both becomes 1; if not, the stop is that cell's own step. |
| DriverProperties.RunFoldsRan | cgpbp/main.c:129-205 | The inner loop runs the cells of its run in the sense of Ran. |
| DriverProperties.RunFromRan | cgpbp/main.c:120-222 | From (i, j_begin), the loops run exactly the schedule: the OUT ledger gains one record per cell, in order, and the IN ledger gains the same except possibly the first cell; a stop leaves complete cells plus a partial one. |
| DriverProperties.CompletedRunRecords | cgpbp/main.c:120-208 | A process that finishes appends one OUT record per scheduled cell, in order. It appends one IN record per scheduled cell except the first when run_both ≠ 1. Earlier contents are kept, and the ledgers grow by exactly that many lines, so no header is added. |
| DriverProperties.StoppedRunRecords | cgpbp/main.c:120-208 | A process the scorer ends leaves OUT records (and OUT lines) for exactly the first `done` scheduled cells. The IN records cover those cells, plus possibly cell `done`. The final state is the step of cell `done` from a state that completed the earlier cells alive, so CellRecords decides whether cell `done` has its IN record. |
| DriverProperties.InRecordPrecedesOutRecord | cgpbp/main.c:152-187 | With run_both = 1, the IN record is written iff the IN scorer returned, whatever OUT does next. If the IN scorer ends the process, neither ledger changes. A cell with an OUT record has its IN record, and an exit after the IN record leaves the OUT ledger without that cell. |
| DriverProperties.CellRecords | cgpbp/main.c:135-187 | Both regimes use testing fold j. IN starts from the cell seed and OUT from the seed IN left, or from the cell seed when IN is skipped. Each record is (i, j, minus the score on fold j, the test MSE). With run_both = 1, the IN record is appended whenever the IN scorer returns, and an IN exit leaves both ledgers as they were. With run_both ≠ 1, IN is untouched. OUT gains its record iff the process survives the cell, and run_both is then 1. The cell stops the process iff the IN scorer exits (when IN runs), or IN returned or was skipped and the OUT scorer exits: there is no other exit. The run seed advances once, through getIndex. |
| DriverProperties.CellSurvives | cgpbp/main.c:133-205 | When every trained chromosome has the arities of its testing fold, a cell never stops the process. |
| DriverProperties.RunFromSurvives | cgpbp/main.c:120-222 | When every trained chromosome has the arities of its testing fold (as with the iris setup: 4 inputs, 3 outputs), the loops run to the end from any start. |
| DriverProperties.ResumeCompletesLedgers | cgpbp/main.c:87-208 | After a first stop of an experiment started with run_both = 1, resume at the first cell missing from OUT, with run_both = 0 iff IN already holds it. If the resumed process finishes, both ledgers hold one record per scheduled cell, in order. |
| DriverProperties.StopInterrupts | cgpbp/main.c:120-208 | A stop of an experiment started with run_both = 1 leaves the ledgers Interrupted: OUT holds the first d scheduled cells and IN those, possibly plus cell d. |
| DriverProperties.ResumeStep | cgpbp/main.c:87-208 | Resuming Interrupted ledgers at cell d, with run_both = 0 iff IN holds cell d, either finishes with both ledgers holding every scheduled cell in order, or stops with the ledgers Interrupted at some d' ≥ d. So any number of stops and resumes ends, if it ends, with complete ledgers. |
| DriverProperties.CellSeedsDistinct | cgpbp/main.c:150 | Over the 3 × 10 grid, the cell seeds 10i + j + 5 are pairwise distinct. |
| DriverProperties.CellSeedIsNoRunSeed | cgpbp/main.c:124-150 | Within the 3 × 10 grid (runs 0-2, folds 0-9), no cell seed equals a run's starting seed i + 50. |
| DriverProperties.NegativeStartSeedsCollide | cgpbp/main.c:124-150 | Outside the grid this fails: a resume at run -20 (a value the prompt accepts) shuffles with seed 30, the seed of cell (2, 5), which that start reaches. |
| DriverProperties.SeedExpressionsFitInt | cgpbp/main.c:124-150 | For start coordinates the prompt can deliver, `i + 50` and `i*10 + j + 5` never overflow `int` in any visited cell. |
| DriverProperties.RunFromShuffles | cgpbp/main.c:120-126 | Each run the loops enter shuffles the main data set once more, with seed i + 50, and cells never shuffle. A finished process has appended the seeds of runs i, ..., 2 in order; a stopped one a non-empty prefix of them. |
| DriverProperties.RunOpensWithShuffle | cgpbp/main.c:120-135 | Run i shuffles with seed i + 50 before its first cell, and that cell draws its partition from the seed the shuffle left. |
| DriverProperties.StartupProbe | cgpbp/main.c:66-113 | A fresh start leaves each ledger with exactly one header and no record, starting at (0, 0, 1). A resume keeps both ledgers unchanged and uses the typed start. |
| DriverProperties.HeaderOnlyResumeIsFreshStart | cgpbp/main.c:66-90 | Resuming header-only ledgers at (0, 0, 1) starts exactly like a fresh experiment. |
| DriverProperties.CellStepRecordsInRange | cgpbp/main.c:165-187 | A cell keeps every recorded accuracy either NaN or within [0, 1]. |
| DriverProperties.RunFromRecordsInRange | cgpbp/main.c:120-222 | Every accuracy the loops write to either ledger is NaN or within [0, 1]. |

## Left out

- File and console I/O is not modelled: `fopen`, `fseek`, `fflush`, `fclose`, `printf`, and the `%.4lf` formatting of ledger lines. A ledger is a sequence of lines, and a line keeps its values unrounded.
- The interactive resume prompt is not modelled: `fgets`, newline stripping, `strtol`, and `exit(1)` on end of input. The typed start is an input, limited to values `strtol` can produce from 8 characters.
- The CGP/FANN library is left abstract. This covers `shuffleData`, `reduceSampleSize`, `generateFolds`, `getIndex`, the fold getters, the FANN conversions, both trainers, `executeChromosome` and the fitness functions. They are fields of `Driver.Library`, and no property of them (stratification, disjoint folds, determinism of shuffling) is assumed or proved.
- Doubles are modelled as reals: no NaN or infinite chromosome outputs, and no rounding. For finite values, the `-DBL_MAX` starting maximum behaves like starting the argmax at index 0, which is what the model does.
- Memory management is not modelled: `malloc`, `free`, the free functions, and the `reducedData != mainData` check.
- The fixed parameter setup before line 61 (node count, arity, mutation, weight range, `percentage`) is not modelled. It reaches the trainers only through the library.
- DriverProperties.ResumeStep and DriverProperties.ResumeCompletesLedgers: these state only which cells the ledgers hold after a resume. They do not cover a resume typed against the operator's rule (another cell, or run_both = 0 when IN lacks the cell), and they say nothing about termination, since the scorer may stop every attempt.
- DriverProperties.ResumeCompletesLedgers: this states which cells the ledgers hold after a resume, not that the values match an uninterrupted run. The code does not guarantee that. The run seed advances once per fold through `getIndex`, so skipping folds changes later partitions. Shuffling accumulates across runs. IN and OUT share the cell seed variable, so skipping IN changes the seed OUT starts from.
- Killing the process from outside, mid-cell, is not modelled. The only early exit is the scorer's `exit(0)`. Such a kill can leave the same ledger states as the model's stops.
