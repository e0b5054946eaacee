/*
  The experiment driver of the CGPBP harness (`main`): it probes the two
  result ledgers to decide between a fresh start and a resumed one, then
  runs 3 independent stratified 10-fold cross-validations. For every
  (run i, fold j) cell it trains with the CGPBP-IN regime (unless the
  resumed first cell says it already ran) and then with the CGPBP-OUT
  regime, scores each trained chromosome on the testing fold and appends
  one (i, j, -accuracy, mse) record per regime to that regime's ledger.
*/
module Driver {
  import opened Scoring

  /** Number of independent cross-validations, and folds in each. */
  const Runs := 3
  const Folds := 10

  const RunSeedOffset := 50
  const CellSeedOffset := 5

  /** Values of C's `unsigned int`. */
  const UIntRange := 0x1_0000_0000

  /** C's conversion of an `int` to `unsigned int`: reduction modulo 2^32. */
  function Seed(x: int): (s: nat)
    ensures s < UIntRange
    ensures (x - s) % UIntRange == 0
    ensures 0 <= x < UIntRange ==> s == x
  {
    x % UIntRange
  }

  /** The seed each run starts from: `seed = i + 50`. */
  function RunSeed(i: int): nat
  {
    Seed(i + RunSeedOffset)
  }

  /** The seed of one cell: `seed = (i*10)+j+5`. */
  function CellSeed(i: int, j: int): nat
  {
    Seed(i * 10 + j + CellSeedOffset)
  }

  /** One (run, fold) cell of the experiment grid. */
  datatype Cell = Cell(i: int, j: int)

  /** Fixed settings of a training regime: generations, backpropagation epochs, and
      whether backpropagation trains on training and validation data merged. */
  datatype Budget = Budget(generations: nat, bpMaxEpochs: nat, mergedBackprop: bool)

  const InBudget := Budget(64, 4000, false)
  const OutBudget := Budget(40000, 40000, true)

  /**
    What the hidden data functions have to work with in one cell: the seeds
    the main data set has been shuffled with so far (shuffling is
    cumulative), the testing fold index, and the run seed `getIndex` draws
    the training/validation folds from.
  */
  datatype Setting = Setting(shuffles: seq<nat>, testingFold: int, partitionSeed: nat)

  /** A trained chromosome, its test MSE, and the seed the trainer left behind. */
  datatype Trained = Trained(model: Chromosome, mse: real, seed: nat)

  /**
    The CGP/FANN library the driver calls, as functions: the seed left by
    `shuffleData`, the seed left by `getIndex`, a training regime together
    with `setChromosomeFitness`/`getChromosomeFitness`, and the testing fold.
  */
  datatype Library = Library(
    shuffle: nat -> nat,
    getIndex: (int, nat) -> nat,
    train: (Budget, Setting, nat) -> Trained,
    testing: Setting -> WellFormedDataSet)

  /** A line of a ledger file: the header, or one `i, j, acc, mse` record. */
  datatype Line = Header | Entry(i: int, j: int, acc: Number, mse: real)

  datatype Option<T> = None | Some(value: T)

  /** Where the loops start: `i_begin`, `j_begin`, `run_both`. */
  datatype Start = Start(i: int, j: int, runBoth: int)

  /** The ledgers after the startup probe, and the start coordinates. */
  datatype Opened = Opened(ledgerIn: seq<Line>, ledgerOut: seq<Line>, start: Start)

  /**
    The startup probe. A ledger that cannot be opened for update is None.
    If either is missing both are created anew holding only the header,
    and the experiment starts at (0, 0) with both regimes; otherwise the
    contents are kept and the start is what the operator typed.
  */
  function Startup(inFile: Option<seq<Line>>, outFile: Option<seq<Line>>, typed: Start): Opened
  {
    if inFile.None? || outFile.None? then Opened([Header], [Header], Start(0, 0, 1))
    else Opened(inFile.value, outFile.value, typed)
  }

  /** A value that `strtol` can produce from the 8 characters the prompt buffer keeps. */
  predicate Typable(x: int)
  {
    -9_999_999 <= x <= 99_999_999
  }

  /*
    The functional specification of the loops of `main`.
  */

  /** The state the loops carry: both ledgers, the shuffle history of the main
      data set, the run seed, `run_both`, and whether the process has exited. */
  datatype Progress = Progress(
    ledgerIn: seq<Line>, ledgerOut: seq<Line>, shuffles: seq<nat>,
    runSeed: nat, runBoth: int, halted: bool)

  /** One regime's result: the scorer's outcome, the test MSE and the seed after training. */
  datatype Evaluation = Evaluation(outcome: Outcome, mse: real, seed: nat)

  function EvaluationOf(lib: Library, budget: Budget, setting: Setting, seed: nat): Evaluation
  {
    var t := lib.train(budget, setting, seed);
    Evaluation(AccuracyOf(t.model, lib.testing(setting)), t.mse, t.seed)
  }

  /** The OUT half of a cell: train, score, and append, or exit when the scorer exits. */
  function OutStep(lib: Library, p: Progress, c: Cell, setting: Setting, seed: nat): Progress
  {
    var e := EvaluationOf(lib, OutBudget, setting, seed);
    if e.outcome.Terminated? then p.(halted := true)
    else p.(ledgerOut := p.ledgerOut + [Entry(c.i, c.j, Negate(e.outcome.score), e.mse)])
  }

  /** One cell: draw the partition, run IN when `run_both == 1`, then OUT with the
      seed IN left behind (or the cell seed when IN did not run). */
  function CellStep(lib: Library, p: Progress, c: Cell): Progress
  {
    var setting := Setting(p.shuffles, c.j, p.runSeed);
    var p1 := p.(runSeed := lib.getIndex(c.j, p.runSeed));
    if p.runBoth == 1 then
      var e := EvaluationOf(lib, InBudget, setting, CellSeed(c.i, c.j));
      if e.outcome.Terminated? then p1.(halted := true)
      else
        var p2 := p1.(ledgerIn := p1.ledgerIn + [Entry(c.i, c.j, Negate(e.outcome.score), e.mse)]);
        OutStep(lib, p2.(runBoth := 1), c, setting, e.seed)
    else OutStep(lib, p1.(runBoth := 1), c, setting, CellSeed(c.i, c.j))
  }

  /** The inner loop: cells (i, j), (i, j+1), ..., (i, 9), until the process exits. */
  function RunFolds(lib: Library, p: Progress, i: int, j: int): Progress
    decreases Folds - j
  {
    if j >= Folds || p.halted then p
    else RunFolds(lib, CellStep(lib, p, Cell(i, j)), i, j + 1)
  }

  lemma RunFoldsDone(lib: Library, p: Progress, i: int, j: int)
    requires p.halted || j >= Folds
    ensures RunFolds(lib, p, i, j) == p
  {
  }

  lemma RunFoldsUnfold(lib: Library, p: Progress, q: Progress, i: int, j: int)
    requires !p.halted && j < Folds
    requires q == CellStep(lib, p, Cell(i, j))
    ensures RunFolds(lib, p, i, j) == RunFolds(lib, q, i, j + 1)
    ensures q.halted ==> RunFolds(lib, p, i, j) == q
  {
  }

  /** The outer loop from run i, whose first fold is jBegin; later runs start at fold 0. */
  function RunFrom(lib: Library, p: Progress, i: int, jBegin: int): Progress
    decreases Runs - i
  {
    if i >= Runs || p.halted then p
    else
      var s := RunSeed(i);
      var p1 := p.(shuffles := p.shuffles + [s], runSeed := lib.shuffle(s));
      RunFrom(lib, RunFolds(lib, p1, i, jBegin), i + 1, 0)
  }

  lemma RunFromDone(lib: Library, p: Progress, i: int, jBegin: int)
    requires p.halted || i >= Runs
    ensures RunFrom(lib, p, i, jBegin) == p
  {
  }

  lemma RunFromUnfold(lib: Library, p: Progress, q: Progress, i: int, jBegin: int)
    requires !p.halted && i < Runs
    requires q == RunFolds(lib, p.(shuffles := p.shuffles + [RunSeed(i)], runSeed := lib.shuffle(RunSeed(i))), i, jBegin)
    ensures RunFrom(lib, p, i, jBegin) == RunFrom(lib, q, i + 1, 0)
    ensures q.halted ==> RunFrom(lib, p, i, jBegin) == q
  {
  }

  /*
    The driver itself.
  */

  class Experiment {
    const lib: Library
    var ledgerIn: seq<Line>
    var ledgerOut: seq<Line>
    /** The seeds `mainData` has been shuffled with, in order. */
    var shuffles: seq<nat>
    var start: Start

    /** Probes the ledgers: `inFile`/`outFile` are their contents, None when
        `fopen(..., "r+")` fails; `typed` is what the operator enters on resume. */
    constructor (lib: Library, inFile: Option<seq<Line>>, outFile: Option<seq<Line>>, typed: Start)
      requires inFile.Some? && outFile.Some? ==> Typable(typed.i) && Typable(typed.j)
      ensures this.lib == lib && shuffles == []
      ensures Opened(ledgerIn, ledgerOut, start) == Startup(inFile, outFile, typed)
    {
      this.lib := lib;
      shuffles := [];
      if inFile.None? || outFile.None? {
        ledgerIn := [Header];
        ledgerOut := [Header];
        start := Start(0, 0, 1);
      } else {
        ledgerIn := inFile.value;
        ledgerOut := outFile.value;
        start := typed;
      }
    }

    /** Trains with one regime, then scores the chromosome on the testing fold. */
    method Evaluate(budget: Budget, setting: Setting, seed: nat) returns (e: Evaluation)
      ensures e == EvaluationOf(lib, budget, setting, seed)
    {
      var trained := lib.train(budget, setting, seed);
      var acc := Accuracy(trained.model, lib.testing(setting));
      e := Evaluation(acc, trained.mse, trained.seed);
    }

    /** The body of the inner loop for cell (i, j); `stopped` when the scorer exits. */
    method RunCell(i: int, j: int, runSeed: nat, runBoth: int) returns (runSeed': nat, runBoth': int, stopped: bool)
      modifies this`ledgerIn, this`ledgerOut
      ensures Progress(ledgerIn, ledgerOut, shuffles, runSeed', runBoth', stopped) ==
              CellStep(lib, Progress(old(ledgerIn), old(ledgerOut), shuffles, runSeed, runBoth, false), Cell(i, j))
    {
      var setting := Setting(shuffles, j, runSeed);
      runSeed' := lib.getIndex(j, runSeed);
      runBoth' := runBoth;
      var seed := CellSeed(i, j);
      if runBoth == 1 {
        var eIn := Evaluate(InBudget, setting, seed);
        if eIn.outcome.Terminated? {
          return runSeed', runBoth', true;
        }
        ledgerIn := ledgerIn + [Entry(i, j, Negate(eIn.outcome.score), eIn.mse)];
        seed := eIn.seed;
      }
      runBoth' := 1;
      var eOut := Evaluate(OutBudget, setting, seed);
      if eOut.outcome.Terminated? {
        return runSeed', runBoth', true;
      }
      ledgerOut := ledgerOut + [Entry(i, j, Negate(eOut.outcome.score), eOut.mse)];
      stopped := false;
    }

    /** The inner loop of `main` for run i, from fold j; `stopped` when the scorer exits. */
    method RunFoldsOf(i: int, jBegin: int, runSeed: nat, runBoth: int) returns (runSeed': nat, runBoth': int, stopped: bool)
      modifies this`ledgerIn, this`ledgerOut
      ensures Progress(ledgerIn, ledgerOut, shuffles, runSeed', runBoth', stopped) ==
              RunFolds(lib, Progress(old(ledgerIn), old(ledgerOut), shuffles, runSeed, runBoth, false), i, jBegin)
    {
      hide RunFolds, CellStep;
      runSeed', runBoth', stopped := runSeed, runBoth, false;
      var j := jBegin;
      ghost var goal := RunFolds(lib, Progress(ledgerIn, ledgerOut, shuffles, runSeed, runBoth, false), i, jBegin);
      while j < Folds
        invariant !stopped
        invariant RunFolds(lib, Progress(ledgerIn, ledgerOut, shuffles, runSeed', runBoth', false), i, j) == goal
        decreases Folds - j
      {
        ghost var p := Progress(ledgerIn, ledgerOut, shuffles, runSeed', runBoth', false);
        runSeed', runBoth', stopped := RunCell(i, j, runSeed', runBoth');
        ghost var q := Progress(ledgerIn, ledgerOut, shuffles, runSeed', runBoth', stopped);
        RunFoldsUnfold(lib, p, q, i, j);
        if stopped {
          return;
        }
        j := j + 1;
      }
      RunFoldsDone(lib, Progress(ledgerIn, ledgerOut, shuffles, runSeed', runBoth', false), i, j);
    }

    /** The two loops of `main`; `finished` is false when the process exits early. */
    method Run() returns (finished: bool)
      modifies this
      ensures start == old(start)
      ensures var q := RunFrom(lib, Progress(old(ledgerIn), old(ledgerOut), old(shuffles), 0, start.runBoth, false), start.i, start.j);
              ledgerIn == q.ledgerIn && ledgerOut == q.ledgerOut && shuffles == q.shuffles && finished == !q.halted
    {
      hide RunFrom, RunFolds, CellStep;
      var runBoth := start.runBoth;
      var jBegin := start.j;
      var i := start.i;
      var seed: nat := 0;
      ghost var goal := RunFrom(lib, Progress(ledgerIn, ledgerOut, shuffles, seed, runBoth, false), i, jBegin);
      while i < Runs
        invariant start == old(start)
        invariant RunFrom(lib, Progress(ledgerIn, ledgerOut, shuffles, seed, runBoth, false), i, jBegin) == goal
        decreases Runs - i
      {
        ghost var p := Progress(ledgerIn, ledgerOut, shuffles, seed, runBoth, false);
        seed := RunSeed(i);
        shuffles := shuffles + [seed];
        seed := lib.shuffle(seed);
        var stopped;
        seed, runBoth, stopped := RunFoldsOf(i, jBegin, seed, runBoth);
        RunFromUnfold(lib, p, Progress(ledgerIn, ledgerOut, shuffles, seed, runBoth, stopped), i, jBegin);
        if stopped {
          return false;
        }
        jBegin := 0;
        i := i + 1;
      }
      RunFromDone(lib, Progress(ledgerIn, ledgerOut, shuffles, seed, runBoth, false), i, jBegin);
      return true;
    }
  }
}
