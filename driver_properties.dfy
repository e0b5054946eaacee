/*
  What the loops of `main` do to the two ledgers, stated about the
  functional specification in module Driver: which cells run and in what
  order, which regimes run in each, what happens when the process stops
  part-way, how resumption completes the ledgers, and the seeds.
*/
module DriverProperties {
  import opened Scoring
  import opened Driver

  /*
    The schedule of cells.
  */

  /** The cells of run i from fold j on: (i, j), (i, j+1), ..., (i, 9). */
  function CellsOfRun(i: int, j: int): seq<Cell>
    decreases Folds - j
  {
    if j >= Folds then [] else [Cell(i, j)] + CellsOfRun(i, j + 1)
  }

  /** Every cell the loops visit from run i, fold j: the rest of run i, then whole runs up to run 2. */
  function Schedule(i: int, j: int): seq<Cell>
    decreases Runs - i
  {
    if i >= Runs then [] else CellsOfRun(i, j) + Schedule(i + 1, 0)
  }

  /** The cells a start at (iBegin, jBegin) covers, described without the loops. */
  predicate Scheduled(iBegin: int, jBegin: int, c: Cell)
  {
    iBegin <= c.i < Runs && c.j < Folds && (if c.i == iBegin then jBegin <= c.j else 0 <= c.j)
  }

  /** Lexicographic order on cells. */
  predicate Before(a: Cell, b: Cell)
  {
    a.i < b.i || (a.i == b.i && a.j < b.j)
  }

  lemma CellsOfRunUnfold(i: int, j: int)
    ensures CellsOfRun(i, j) == if j >= Folds then [] else [Cell(i, j)] + CellsOfRun(i, j + 1)
  {
  }

  lemma ScheduleUnfold(i: int, j: int)
    ensures Schedule(i, j) == if i >= Runs then [] else CellsOfRun(i, j) + Schedule(i + 1, 0)
  {
  }

  lemma {:induction false} CellsOfRunShape(i: int, j: int)
    ensures |CellsOfRun(i, j)| == if j >= Folds then 0 else Folds - j
    ensures forall k :: 0 <= k < |CellsOfRun(i, j)| ==> CellsOfRun(i, j)[k] == Cell(i, j + k)
    decreases Folds - j
  {
    if j < Folds {
      CellsOfRunShape(i, j + 1);
    }
  }

  lemma CellsOfRunMembers(i: int, j: int, c: Cell)
    ensures c in CellsOfRun(i, j) <==> c.i == i && j <= c.j < Folds
  {
    CellsOfRunShape(i, j);
    if c.i == i && j <= c.j < Folds {
      assert CellsOfRun(i, j)[c.j - j] == c;
    }
  }

  /** A start at (iBegin, jBegin) visits exactly the cells Scheduled describes. */
  lemma {:induction false} ScheduleMembers(iBegin: int, jBegin: int, c: Cell)
    ensures c in Schedule(iBegin, jBegin) <==> Scheduled(iBegin, jBegin, c)
    decreases Runs - iBegin
  {
    hide Schedule, CellsOfRun;
    ScheduleUnfold(iBegin, jBegin);
    if iBegin < Runs {
      CellsOfRunMembers(iBegin, jBegin, c);
      ScheduleMembers(iBegin + 1, 0, c);
    }
  }

  /** The cells are visited in strictly increasing lexicographic order, so none twice. */
  lemma {:induction false} ScheduleSorted(iBegin: int, jBegin: int)
    ensures forall x, y :: 0 <= x < y < |Schedule(iBegin, jBegin)| ==>
              Before(Schedule(iBegin, jBegin)[x], Schedule(iBegin, jBegin)[y])
    decreases Runs - iBegin
  {
    hide Schedule, CellsOfRun;
    ScheduleUnfold(iBegin, jBegin);
    if iBegin < Runs {
      ScheduleSorted(iBegin + 1, 0);
      var a, b := CellsOfRun(iBegin, jBegin), Schedule(iBegin + 1, 0);
      CellsOfRunShape(iBegin, jBegin);
      forall x, y | 0 <= x < y < |a + b|
        ensures Before((a + b)[x], (a + b)[y])
      {
        if y >= |a| && x < |a| {
          ScheduleMembers(iBegin + 1, 0, b[y - |a|]);
        }
      }
    }
  }

  /** A full experiment covers the 3 x 10 grid: 30 cells. */
  lemma FullScheduleSize()
    ensures |Schedule(0, 0)| == Runs * Folds
  {
    CellsOfRunShape(0, 0);
    CellsOfRunShape(1, 0);
    CellsOfRunShape(2, 0);
  }

  /** What is left of a schedule from its k-th cell on is the schedule that starts at that cell. */
  lemma {:induction false} ScheduleSuffix(iBegin: int, jBegin: int, k: nat)
    requires k < |Schedule(iBegin, jBegin)|
    ensures Schedule(iBegin, jBegin)[k..] ==
            Schedule(Schedule(iBegin, jBegin)[k].i, Schedule(iBegin, jBegin)[k].j)
    decreases Runs - iBegin
  {
    hide Schedule, CellsOfRun;
    ScheduleUnfold(iBegin, jBegin);
    var a, b := CellsOfRun(iBegin, jBegin), Schedule(iBegin + 1, 0);
    CellsOfRunShape(iBegin, jBegin);
    if k < |a| {
      CellsOfRunShape(iBegin, jBegin + k);
      ScheduleUnfold(iBegin, jBegin + k);
      assert a[k..] == CellsOfRun(iBegin, jBegin + k);
      assert (a + b)[k..] == a[k..] + b;
    } else {
      ScheduleSuffix(iBegin + 1, 0, k - |a|);
      assert (a + b)[k..] == b[k - |a|..];
    }
  }

  /*
    Ledger coordinates: the (i, j) of each record, in order.
  */

  function Coords(ls: seq<Line>): seq<Cell>
  {
    if ls == [] then []
    else (if ls[0].Entry? then [Cell(ls[0].i, ls[0].j)] else []) + Coords(ls[1..])
  }

  lemma {:induction false} CoordsAppend(a: seq<Line>, b: seq<Line>)
    ensures Coords(a + b) == Coords(a) + Coords(b)
  {
    if a != [] {
      CoordsAppend(a[1..], b);
      assert (a + b)[0] == a[0];
      assert (a + b)[1..] == a[1..] + b;
    } else {
      assert a + b == b;
    }
  }

  /** The cells whose IN record a run of s appends: all of them, or all but the
      first when it starts with `run_both` other than 1. */
  function Gated(s: seq<Cell>, runBoth: int): seq<Cell>
  {
    if runBoth == 1 || s == [] then s else s[1..]
  }

  /** Every line is a record: no header slipped in. */
  predicate AllEntries(ls: seq<Line>)
  {
    forall k :: 0 <= k < |ls| ==> ls[k].Entry?
  }

  lemma {:induction false} AllEntriesCoords(ls: seq<Line>)
    requires AllEntries(ls)
    ensures |Coords(ls)| == |ls|
  {
    if ls != [] {
      AllEntriesCoords(ls[1..]);
    }
  }

  /**
    Going from p to q ran the cells s and the process is still alive. Both
    ledgers only grew, by records alone: the OUT ledger by one record per
    cell of s and the IN ledger by one per cell of Gated(s), in order; and
    `run_both` is 1 once any cell ran.
  */
  ghost predicate Live(p: Progress, q: Progress, s: seq<Cell>)
  {
    !q.halted && p.ledgerIn <= q.ledgerIn && p.ledgerOut <= q.ledgerOut &&
    AllEntries(q.ledgerOut[|p.ledgerOut|..]) && AllEntries(q.ledgerIn[|p.ledgerIn|..]) &&
    Coords(q.ledgerOut[|p.ledgerOut|..]) == s &&
    Coords(q.ledgerIn[|p.ledgerIn|..]) == Gated(s, p.runBoth) &&
    q.runBoth == (if s == [] then p.runBoth else 1)
  }

  /**
    Going from p to q ran the cells s: either all of them, still alive, or
    the first k of them alive and then the step of cell k, in which the
    scorer ended the process.
  */
  ghost predicate Ran(lib: Library, p: Progress, q: Progress, s: seq<Cell>)
  {
    if q.halted then
      exists k: nat, m: Progress :: k < |s| && Live(p, m, s[..k]) && q == CellStep(lib, m, s[k])
    else
      Live(p, q, s)
  }

  lemma LiveNothing(p: Progress)
    requires !p.halted
    ensures Live(p, p, [])
  {
    assert p.ledgerIn[|p.ledgerIn|..] == [];
    assert p.ledgerOut[|p.ledgerOut|..] == [];
  }

  lemma RanNothing(lib: Library, p: Progress)
    requires !p.halted
    ensures Ran(lib, p, p, [])
  {
    LiveNothing(p);
  }

  /** What Live says about whole ledgers rather than the appended parts. */
  lemma LiveLedgers(p: Progress, q: Progress, s: seq<Cell>)
    requires Live(p, q, s)
    ensures p.ledgerIn <= q.ledgerIn && p.ledgerOut <= q.ledgerOut && !q.halted
    ensures Coords(q.ledgerOut) == Coords(p.ledgerOut) + s
    ensures Coords(q.ledgerIn) == Coords(p.ledgerIn) + Gated(s, p.runBoth)
    ensures |q.ledgerOut| == |p.ledgerOut| + |s|
    ensures |q.ledgerIn| == |p.ledgerIn| + |Gated(s, p.runBoth)|
    ensures q.runBoth == if s == [] then p.runBoth else 1
  {
    assert q.ledgerOut == p.ledgerOut + q.ledgerOut[|p.ledgerOut|..];
    assert q.ledgerIn == p.ledgerIn + q.ledgerIn[|p.ledgerIn|..];
    CoordsAppend(p.ledgerOut, q.ledgerOut[|p.ledgerOut|..]);
    CoordsAppend(p.ledgerIn, q.ledgerIn[|p.ledgerIn|..]);
    AllEntriesCoords(q.ledgerOut[|p.ledgerOut|..]);
    AllEntriesCoords(q.ledgerIn[|p.ledgerIn|..]);
  }

  /** The cell the scorer stops in leaves OUT as it was, and IN as it was or with that cell's record. */
  lemma HaltingCell(lib: Library, m: Progress, c: Cell)
    requires !m.halted && CellStep(lib, m, c).halted
    ensures var q := CellStep(lib, m, c);
            q.ledgerOut == m.ledgerOut &&
            (q.ledgerIn == m.ledgerIn ||
             (m.runBoth == 1 && m.ledgerIn <= q.ledgerIn && Coords(q.ledgerIn) == Coords(m.ledgerIn) + [c]))
  {
    var q := CellStep(lib, m, c);
    if q.ledgerIn != m.ledgerIn {
      var e := q.ledgerIn[|m.ledgerIn|];
      assert q.ledgerIn == m.ledgerIn + [e];
      CoordsAppend(m.ledgerIn, [e]);
      assert [e][1..] == [];
    }
  }

  lemma AppendedOne(a: seq<Line>, e: Line)
    requires e.Entry?
    ensures a <= a + [e]
    ensures AllEntries((a + [e])[|a|..])
    ensures Coords((a + [e])[|a|..]) == [Cell(e.i, e.j)]
  {
    assert (a + [e])[|a|..] == [e];
  }

  lemma AppendedNone(a: seq<Line>)
    ensures a <= a && AllEntries(a[|a|..]) && Coords(a[|a|..]) == []
  {
    assert a[|a|..] == [];
  }

  /** A cell the process survives appends its OUT record, and its IN record when `run_both` is 1. */
  lemma LiveCell(lib: Library, p: Progress, c: Cell)
    requires !p.halted && !CellStep(lib, p, c).halted
    ensures Live(p, CellStep(lib, p, c), [c])
  {
    var setting := Setting(p.shuffles, c.j, p.runSeed);
    AppendedNone(p.ledgerIn);
    if p.runBoth == 1 {
      var e := EvaluationOf(lib, InBudget, setting, CellSeed(c.i, c.j));
      AppendedOne(p.ledgerIn, Entry(c.i, c.j, Negate(e.outcome.score), e.mse));
      var eo := EvaluationOf(lib, OutBudget, setting, e.seed);
      AppendedOne(p.ledgerOut, Entry(c.i, c.j, Negate(eo.outcome.score), eo.mse));
    } else {
      var eo := EvaluationOf(lib, OutBudget, setting, CellSeed(c.i, c.j));
      AppendedOne(p.ledgerOut, Entry(c.i, c.j, Negate(eo.outcome.score), eo.mse));
    }
  }

  /** One cell runs the cell. */
  lemma RanCell(lib: Library, p: Progress, c: Cell)
    requires !p.halted
    ensures Ran(lib, p, CellStep(lib, p, c), [c])
  {
    if CellStep(lib, p, c).halted {
      LiveNothing(p);
      assert [c][..0] == [];
    } else {
      LiveCell(lib, p, c);
    }
  }

  lemma GatedConcat(s1: seq<Cell>, s2: seq<Cell>, runBoth: int)
    ensures Gated(s1 + s2, runBoth) == Gated(s1, runBoth) + Gated(s2, if s1 == [] then runBoth else 1)
  {
    if s1 != [] && runBoth != 1 {
      assert (s1 + s2)[1..] == s1[1..] + s2;
    }
  }

  lemma SliceSplit(a: seq<Line>, b: seq<Line>, c: seq<Line>)
    requires a <= b && b <= c
    ensures a <= c
    ensures c[|a|..] == b[|a|..] + c[|b|..]
  {
  }

  lemma AllEntriesConcat(a: seq<Line>, b: seq<Line>)
    requires AllEntries(a) && AllEntries(b)
    ensures AllEntries(a + b)
  {
    forall k | 0 <= k < |a + b|
      ensures (a + b)[k].Entry?
    {
      if k >= |a| {
        assert (a + b)[k] == b[k - |a|];
      }
    }
  }

  /** Staying alive through s1 and then through s2 is staying alive through s1 + s2. */
  lemma LiveConcat(p: Progress, q1: Progress, q: Progress, s1: seq<Cell>, s2: seq<Cell>)
    requires Live(p, q1, s1) && Live(q1, q, s2)
    ensures Live(p, q, s1 + s2)
  {
    hide Coords, Gated;
    SliceSplit(p.ledgerOut, q1.ledgerOut, q.ledgerOut);
    SliceSplit(p.ledgerIn, q1.ledgerIn, q.ledgerIn);
    AllEntriesConcat(q1.ledgerOut[|p.ledgerOut|..], q.ledgerOut[|q1.ledgerOut|..]);
    AllEntriesConcat(q1.ledgerIn[|p.ledgerIn|..], q.ledgerIn[|q1.ledgerIn|..]);
    CoordsAppend(q1.ledgerOut[|p.ledgerOut|..], q.ledgerOut[|q1.ledgerOut|..]);
    CoordsAppend(q1.ledgerIn[|p.ledgerIn|..], q.ledgerIn[|q1.ledgerIn|..]);
    GatedConcat(s1, s2, p.runBoth);
  }

  /** A stop inside s1 is a stop inside s1 + s2. */
  lemma RanHaltedExtend(lib: Library, p: Progress, q: Progress, s1: seq<Cell>, s2: seq<Cell>)
    requires Ran(lib, p, q, s1) && q.halted
    ensures Ran(lib, p, q, s1 + s2)
  {
    hide Live, CellStep, Coords, Gated;
    var k: nat, m: Progress :| k < |s1| && Live(p, m, s1[..k]) && q == CellStep(lib, m, s1[k]);
    assert (s1 + s2)[..k] == s1[..k];
    assert (s1 + s2)[k] == s1[k];
    assert Live(p, m, (s1 + s2)[..k]);
  }

  /** Running s1 alive and then s2 runs s1 + s2. */
  lemma RanConcat(lib: Library, p: Progress, q1: Progress, q: Progress, s1: seq<Cell>, s2: seq<Cell>)
    requires Ran(lib, p, q1, s1) && !q1.halted && Ran(lib, q1, q, s2)
    ensures Ran(lib, p, q, s1 + s2)
  {
    hide Live, CellStep, Coords, Gated;
    if q.halted {
      var k: nat, m: Progress :| k < |s2| && Live(q1, m, s2[..k]) && q == CellStep(lib, m, s2[k]);
      LiveConcat(p, q1, m, s1, s2[..k]);
      assert (s1 + s2)[..|s1| + k] == s1 + s2[..k];
      assert (s1 + s2)[|s1| + k] == s2[k];
      assert Live(p, m, (s1 + s2)[..|s1| + k]);
    } else {
      LiveConcat(p, q1, q, s1, s2);
    }
  }

  /** Ran depends on the starting point only through its ledgers and `run_both`. */
  lemma RanFromLedgers(lib: Library, p: Progress, p': Progress, q: Progress, s: seq<Cell>)
    requires p.ledgerIn == p'.ledgerIn && p.ledgerOut == p'.ledgerOut && p.runBoth == p'.runBoth
    requires Ran(lib, p, q, s)
    ensures Ran(lib, p', q, s)
  {
    if q.halted {
      var k: nat, m: Progress :| k < |s| && Live(p, m, s[..k]) && q == CellStep(lib, m, s[k]);
      assert Live(p', m, s[..k]);
    }
  }

  lemma {:induction false} RunFoldsRan(lib: Library, p: Progress, i: int, j: int)
    requires !p.halted
    ensures Ran(lib, p, RunFolds(lib, p, i, j), CellsOfRun(i, j))
    decreases Folds - j
  {
    hide RunFolds, CellStep, CellsOfRun, Ran;
    CellsOfRunUnfold(i, j);
    if j >= Folds {
      RunFoldsDone(lib, p, i, j);
      RanNothing(lib, p);
    } else {
      var q1 := CellStep(lib, p, Cell(i, j));
      RunFoldsUnfold(lib, p, q1, i, j);
      RanCell(lib, p, Cell(i, j));
      if q1.halted {
        RanHaltedExtend(lib, p, q1, [Cell(i, j)], CellsOfRun(i, j + 1));
      } else {
        RunFoldsRan(lib, q1, i, j + 1);
        RanConcat(lib, p, q1, RunFolds(lib, q1, i, j + 1), [Cell(i, j)], CellsOfRun(i, j + 1));
      }
    }
  }

  /** The loops of `main` from (i, jBegin) run exactly Schedule(i, jBegin), in the sense of Ran. */
  lemma {:induction false} RunFromRan(lib: Library, p: Progress, i: int, jBegin: int)
    requires !p.halted
    ensures Ran(lib, p, RunFrom(lib, p, i, jBegin), Schedule(i, jBegin))
    decreases Runs - i
  {
    hide RunFrom, RunFolds, CellStep, Schedule, CellsOfRun, Ran;
    ScheduleUnfold(i, jBegin);
    if i >= Runs {
      RunFromDone(lib, p, i, jBegin);
      RanNothing(lib, p);
    } else {
      var p1 := p.(shuffles := p.shuffles + [RunSeed(i)], runSeed := lib.shuffle(RunSeed(i)));
      var q1 := RunFolds(lib, p1, i, jBegin);
      RunFromUnfold(lib, p, q1, i, jBegin);
      RunFoldsRan(lib, p1, i, jBegin);
      RanFromLedgers(lib, p1, p, q1, CellsOfRun(i, jBegin));
      if q1.halted {
        RanHaltedExtend(lib, p, q1, CellsOfRun(i, jBegin), Schedule(i + 1, 0));
      } else {
        RunFromRan(lib, q1, i + 1, 0);
        RanConcat(lib, p, q1, RunFrom(lib, q1, i + 1, 0), CellsOfRun(i, jBegin), Schedule(i + 1, 0));
      }
    }
  }

  /**
    An experiment that runs to the end appends, after what the ledgers
    held, one OUT record per scheduled cell and one IN record per scheduled
    cell except the first when `run_both` is not 1, in schedule order.
  */
  lemma CompletedRunRecords(lib: Library, p: Progress, i: int, jBegin: int)
    requires !p.halted && !RunFrom(lib, p, i, jBegin).halted
    ensures var q := RunFrom(lib, p, i, jBegin);
            p.ledgerIn <= q.ledgerIn && p.ledgerOut <= q.ledgerOut &&
            Coords(q.ledgerOut) == Coords(p.ledgerOut) + Schedule(i, jBegin) &&
            Coords(q.ledgerIn) == Coords(p.ledgerIn) + Gated(Schedule(i, jBegin), p.runBoth) &&
            |q.ledgerOut| == |p.ledgerOut| + |Schedule(i, jBegin)| &&
            |q.ledgerIn| == |p.ledgerIn| + |Gated(Schedule(i, jBegin), p.runBoth)|
  {
    hide RunFrom, RunFolds, CellStep, Schedule, CellsOfRun;
    var q := RunFrom(lib, p, i, jBegin);
    RunFromRan(lib, p, i, jBegin);
    assert q.ledgerOut == p.ledgerOut + q.ledgerOut[|p.ledgerOut|..];
    assert q.ledgerIn == p.ledgerIn + q.ledgerIn[|p.ledgerIn|..];
    CoordsAppend(p.ledgerOut, q.ledgerOut[|p.ledgerOut|..]);
    CoordsAppend(p.ledgerIn, q.ledgerIn[|p.ledgerIn|..]);
    AllEntriesCoords(q.ledgerOut[|p.ledgerOut|..]);
    AllEntriesCoords(q.ledgerIn[|p.ledgerIn|..]);
  }

  /**
    An experiment that stops part-way has, after what the ledgers held,
    OUT records for the first `done` scheduled cells exactly, and IN
    records for those (gated by `run_both`) and possibly for cell `done`,
    the cell it stopped in. The stop is the step of cell `done` taken from
    a state that completed the cells before it, so CellRecords tells which:
    the IN record is there exactly when IN ran and its scorer returned.
  */
  lemma StoppedRunRecords(lib: Library, p: Progress, i: int, jBegin: int)
    requires !p.halted && RunFrom(lib, p, i, jBegin).halted
    ensures var q := RunFrom(lib, p, i, jBegin);
            var s := Schedule(i, jBegin);
            var done := |Coords(q.ledgerOut)| - |Coords(p.ledgerOut)|;
            p.ledgerIn <= q.ledgerIn && p.ledgerOut <= q.ledgerOut &&
            0 <= done < |s| &&
            Coords(q.ledgerOut) == Coords(p.ledgerOut) + s[..done] &&
            (Coords(q.ledgerIn) == Coords(p.ledgerIn) + Gated(s[..done], p.runBoth) ||
             Coords(q.ledgerIn) == Coords(p.ledgerIn) + Gated(s[..done + 1], p.runBoth)) &&
            |q.ledgerOut| == |p.ledgerOut| + done &&
            exists m :: Live(p, m, s[..done]) && q == CellStep(lib, m, s[done])
  {
    hide RunFrom, RunFolds, CellStep, Schedule, CellsOfRun, Live;
    var q := RunFrom(lib, p, i, jBegin);
    var s := Schedule(i, jBegin);
    RunFromRan(lib, p, i, jBegin);
    var k: nat, m: Progress :| k < |s| && Live(p, m, s[..k]) && q == CellStep(lib, m, s[k]);
    StoppingCell(lib, p, m, s, k);
  }

  /** The ledgers after a stop in cell k of s, reached alive through the cells before it. */
  lemma StoppingCell(lib: Library, p: Progress, m: Progress, s: seq<Cell>, k: nat)
    requires k < |s| && Live(p, m, s[..k]) && CellStep(lib, m, s[k]).halted
    ensures var q := CellStep(lib, m, s[k]);
            p.ledgerIn <= q.ledgerIn && p.ledgerOut <= q.ledgerOut &&
            |Coords(q.ledgerOut)| - |Coords(p.ledgerOut)| == k &&
            Coords(q.ledgerOut) == Coords(p.ledgerOut) + s[..k] &&
            (Coords(q.ledgerIn) == Coords(p.ledgerIn) + Gated(s[..k], p.runBoth) ||
             Coords(q.ledgerIn) == Coords(p.ledgerIn) + Gated(s[..k + 1], p.runBoth)) &&
            |q.ledgerOut| == |p.ledgerOut| + k
  {
    hide CellStep, Live, Coords, Gated;
    var q := CellStep(lib, m, s[k]);
    LiveLedgers(p, m, s[..k]);
    HaltingCell(lib, m, s[k]);
    if q.ledgerIn != m.ledgerIn {
      assert s[..k + 1] == s[..k] + [s[k]];
      GatedConcat(s[..k], [s[k]], p.runBoth);
      GatedOne([s[k]]);
    }
  }

  /** Within a cell that runs both regimes, the IN record is written before OUT runs:
      a cell with an OUT record has its IN record, and a stop after the IN record
      leaves the OUT ledger without the cell. */
  lemma InRecordPrecedesOutRecord(lib: Library, p: Progress, c: Cell)
    requires !p.halted && p.runBoth == 1
    ensures var q := CellStep(lib, p, c);
            (|q.ledgerOut| > |p.ledgerOut| ==> |q.ledgerIn| == |p.ledgerIn| + 1 && !q.halted) &&
            (q.halted && |q.ledgerIn| > |p.ledgerIn| ==> q.ledgerOut == p.ledgerOut)
    ensures var q := CellStep(lib, p, c);
            var e := EvaluationOf(lib, InBudget, Setting(p.shuffles, c.j, p.runSeed), CellSeed(c.i, c.j));
            (|q.ledgerIn| > |p.ledgerIn| <==> e.outcome.Returned?) &&
            (e.outcome.Terminated? ==> q.halted && q.ledgerIn == p.ledgerIn && q.ledgerOut == p.ledgerOut)
  {
  }

  /** The seed OUT trains from: the one the IN trainer left behind through the
      shared `seed` variable, or the cell seed itself when IN did not run. */
  function OutSeed(lib: Library, p: Progress, c: Cell): nat
  {
    if p.runBoth == 1 then lib.train(InBudget, Setting(p.shuffles, c.j, p.runSeed), CellSeed(c.i, c.j)).seed
    else CellSeed(c.i, c.j)
  }

  /**
    What a cell writes. Both regimes train on the partition drawn for
    testing fold j; IN starts from the cell seed, OUT from OutSeed. Each
    record is (i, j, the negated score on fold j, the test MSE) of the
    chromosome that regime produced; a record is written only when the
    scorer returned, and the run seed has advanced once through `getIndex`.
  */
  lemma CellRecords(lib: Library, p: Progress, c: Cell)
    requires !p.halted
    ensures var q := CellStep(lib, p, c);
            var setting := Setting(p.shuffles, c.j, p.runSeed);
            var tIn := lib.train(InBudget, setting, CellSeed(c.i, c.j));
            var aIn := AccuracyOf(tIn.model, lib.testing(setting));
            var tOut := lib.train(OutBudget, setting, OutSeed(lib, p, c));
            var aOut := AccuracyOf(tOut.model, lib.testing(setting));
            q.runSeed == lib.getIndex(c.j, p.runSeed) && q.shuffles == p.shuffles &&
            (|q.ledgerIn| > |p.ledgerIn| ==>
               p.runBoth == 1 && aIn.Returned? &&
               q.ledgerIn == p.ledgerIn + [Entry(c.i, c.j, Negate(aIn.score), tIn.mse)]) &&
            (|q.ledgerOut| > |p.ledgerOut| <==> !q.halted) &&
            (!q.halted ==>
               aOut.Returned? &&
               q.ledgerOut == p.ledgerOut + [Entry(c.i, c.j, Negate(aOut.score), tOut.mse)]) &&
            (p.runBoth == 1 && aIn.Returned? ==>
               q.ledgerIn == p.ledgerIn + [Entry(c.i, c.j, Negate(aIn.score), tIn.mse)]) &&
            (p.runBoth == 1 && aIn.Terminated? ==>
               q.halted && q.ledgerIn == p.ledgerIn && q.ledgerOut == p.ledgerOut) &&
            (p.runBoth != 1 ==> q.ledgerIn == p.ledgerIn) &&
            (q.halted ==> q.ledgerOut == p.ledgerOut) &&
            (!q.halted ==> q.runBoth == 1) &&
            (q.halted <==> (p.runBoth == 1 && aIn.Terminated?) ||
                           ((p.runBoth != 1 || aIn.Returned?) && aOut.Terminated?))
  {
  }

  /*
    When the experiment runs to the end.
  */

  /** Every chromosome the trainers produce has the arities of the testing fold it is scored on. */
  ghost predicate TrainersMatchArity(lib: Library)
  {
    forall b, setting, seed ::
      lib.train(b, setting, seed).model.numInputs == lib.testing(setting).numInputs &&
      lib.train(b, setting, seed).model.numOutputs == lib.testing(setting).numOutputs
  }

  /** The scorer is the only exit of the loop body, so with matching arities no cell stops. */
  lemma CellSurvives(lib: Library, p: Progress, c: Cell)
    requires !p.halted && TrainersMatchArity(lib)
    ensures !CellStep(lib, p, c).halted
  {
    var setting := Setting(p.shuffles, c.j, p.runSeed);
    var tIn := lib.train(InBudget, setting, CellSeed(c.i, c.j));
    var tOut := lib.train(OutBudget, setting, OutSeed(lib, p, c));
    AccuracyTerminatesIffArityDiffers(tIn.model, lib.testing(setting));
    AccuracyTerminatesIffArityDiffers(tOut.model, lib.testing(setting));
    CellRecords(lib, p, c);
  }

  lemma {:induction false} RunFoldsSurvives(lib: Library, p: Progress, i: int, j: int)
    requires !p.halted && TrainersMatchArity(lib)
    ensures !RunFolds(lib, p, i, j).halted
    decreases Folds - j
  {
    hide RunFolds, CellStep;
    if j >= Folds {
      RunFoldsDone(lib, p, i, j);
    } else {
      var q := CellStep(lib, p, Cell(i, j));
      RunFoldsUnfold(lib, p, q, i, j);
      CellSurvives(lib, p, Cell(i, j));
      RunFoldsSurvives(lib, q, i, j + 1);
    }
  }

  /**
    When every trained chromosome has the arities of its testing fold (as
    with the iris setup of `main`: 4 inputs, 3 outputs), the process is
    never ended by the scorer and runs the whole schedule.
  */
  lemma {:induction false} RunFromSurvives(lib: Library, p: Progress, i: int, jBegin: int)
    requires !p.halted && TrainersMatchArity(lib)
    ensures !RunFrom(lib, p, i, jBegin).halted
    decreases Runs - i
  {
    hide RunFrom, RunFolds, CellStep;
    if i >= Runs {
      RunFromDone(lib, p, i, jBegin);
    } else {
      var p1 := p.(shuffles := p.shuffles + [RunSeed(i)], runSeed := lib.shuffle(RunSeed(i)));
      var q := RunFolds(lib, p1, i, jBegin);
      RunFromUnfold(lib, p, q, i, jBegin);
      RunFoldsSurvives(lib, p1, i, jBegin);
      RunFromSurvives(lib, q, i + 1, 0);
    }
  }

  /*
    Resumption.
  */

  /**
    Suppose an experiment started with both regimes enabled stops part-way.
    The operator resumes at the first scheduled cell missing from the OUT
    ledger, with `run_both` 0 exactly when the IN ledger already holds that
    cell. If the resumed process runs to the end, each ledger holds one
    record per scheduled cell, in schedule order, as if uninterrupted.
    (Only the coordinates are claimed: the values the trainers produce may
    differ, since shuffling and the seeds depend on where a run starts.)
  */
  lemma ResumeCompletesLedgers(lib1: Library, lib2: Library, p: Progress, iBegin: int, jBegin: int)
    requires !p.halted && p.runBoth == 1
    requires RunFrom(lib1, p, iBegin, jBegin).halted
    ensures var q := RunFrom(lib1, p, iBegin, jBegin);
            var s := Schedule(iBegin, jBegin);
            var done := |Coords(q.ledgerOut)| - |Coords(p.ledgerOut)|;
            0 <= done < |s| &&
            var c := s[done];
            var runBoth := if |Coords(q.ledgerIn)| - |Coords(p.ledgerIn)| > done then 0 else 1;
            var o := Startup(Some(q.ledgerIn), Some(q.ledgerOut), Start(c.i, c.j, runBoth));
            var r := RunFrom(lib2, Progress(o.ledgerIn, o.ledgerOut, [], 0, o.start.runBoth, false), o.start.i, o.start.j);
            !r.halted ==>
              Coords(r.ledgerOut) == Coords(p.ledgerOut) + s &&
              Coords(r.ledgerIn) == Coords(p.ledgerIn) + s
  {
    hide RunFrom, RunFolds, CellStep, Schedule, CellsOfRun, Startup, Coords, Gated;
    var q := RunFrom(lib1, p, iBegin, jBegin);
    var s := Schedule(iBegin, jBegin);
    StoppedRunRecords(lib1, p, iBegin, jBegin);
    var done := |Coords(q.ledgerOut)| - |Coords(p.ledgerOut)|;
    var c := s[done];
    var runBoth := if |Coords(q.ledgerIn)| - |Coords(p.ledgerIn)| > done then 0 else 1;
    StartupResumes(q.ledgerIn, q.ledgerOut, Start(c.i, c.j, runBoth));
    var p2 := Progress(q.ledgerIn, q.ledgerOut, [], 0, runBoth, false);
    var r := RunFrom(lib2, p2, c.i, c.j);
    ScheduleSuffix(iBegin, jBegin, done);
    if !r.halted {
      CompletedRunRecords(lib2, p2, c.i, c.j);
      GatedOne(s[..done]);
      GatedOne(s[..done + 1]);
      Reassemble(Coords(p.ledgerOut), Coords(p.ledgerIn), Coords(q.ledgerOut), Coords(q.ledgerIn),
                 Coords(r.ledgerOut), Coords(r.ledgerIn), s, done, runBoth);
    }
  }

  /**
    The ledgers of an experiment interrupted in cell d of schedule s, over
    the coordinates baseIn and baseOut they held before it started: OUT
    holds the first d cells, IN those and possibly cell d.
  */
  ghost predicate Interrupted(baseIn: seq<Cell>, baseOut: seq<Cell>, s: seq<Cell>,
                              ledgerIn: seq<Line>, ledgerOut: seq<Line>, d: int)
  {
    0 <= d < |s| && Coords(ledgerOut) == baseOut + s[..d] &&
    (Coords(ledgerIn) == baseIn + s[..d] || Coords(ledgerIn) == baseIn + s[..d + 1])
  }

  /**
    The operator's resume of interrupted ledgers: at cell d of s, with
    `run_both` 0 exactly when the IN ledger already holds that cell.
  */
  ghost function Resumed(lib: Library, baseIn: seq<Cell>, s: seq<Cell>,
                         ledgerIn: seq<Line>, ledgerOut: seq<Line>, d: int): Progress
    requires 0 <= d < |s|
  {
    var c := s[d];
    var runBoth := if |Coords(ledgerIn)| - |baseIn| > d then 0 else 1;
    var o := Startup(Some(ledgerIn), Some(ledgerOut), Start(c.i, c.j, runBoth));
    RunFrom(lib, Progress(o.ledgerIn, o.ledgerOut, [], 0, o.start.runBoth, false), o.start.i, o.start.j)
  }

  /** An experiment started with both regimes enabled that stops leaves its ledgers Interrupted. */
  lemma StopInterrupts(lib: Library, p: Progress, iBegin: int, jBegin: int)
    requires !p.halted && p.runBoth == 1 && RunFrom(lib, p, iBegin, jBegin).halted
    ensures var q := RunFrom(lib, p, iBegin, jBegin);
            Interrupted(Coords(p.ledgerIn), Coords(p.ledgerOut), Schedule(iBegin, jBegin),
                        q.ledgerIn, q.ledgerOut, |Coords(q.ledgerOut)| - |Coords(p.ledgerOut)|)
  {
    hide RunFrom, RunFolds, CellStep, Schedule, CellsOfRun, Live, Coords, Gated;
    var q := RunFrom(lib, p, iBegin, jBegin);
    var s := Schedule(iBegin, jBegin);
    StoppedRunRecords(lib, p, iBegin, jBegin);
    var done := |Coords(q.ledgerOut)| - |Coords(p.ledgerOut)|;
    GatedOne(s[..done]);
    GatedOne(s[..done + 1]);
  }

  /**
    Resuming Interrupted ledgers as the operator does either completes them
    (each holds its base plus one record per scheduled cell, in order) or
    leaves them Interrupted again, no earlier in the schedule. So however
    often the scorer stops the experiment, the ledgers stay Interrupted
    until a resume finishes, and that resume completes both.
  */
  lemma ResumeStep(lib: Library, baseIn: seq<Cell>, baseOut: seq<Cell>, iBegin: int, jBegin: int,
                   ledgerIn: seq<Line>, ledgerOut: seq<Line>, d: int)
    requires Interrupted(baseIn, baseOut, Schedule(iBegin, jBegin), ledgerIn, ledgerOut, d)
    ensures var s := Schedule(iBegin, jBegin);
            var r := Resumed(lib, baseIn, s, ledgerIn, ledgerOut, d);
            var d' := |Coords(r.ledgerOut)| - |baseOut|;
            (!r.halted ==> Coords(r.ledgerOut) == baseOut + s && Coords(r.ledgerIn) == baseIn + s) &&
            (r.halted ==> d <= d' && Interrupted(baseIn, baseOut, s, r.ledgerIn, r.ledgerOut, d'))
  {
    hide RunFrom, RunFolds, CellStep, Schedule, CellsOfRun, Startup, Live, Coords, Gated;
    var s := Schedule(iBegin, jBegin);
    var c := s[d];
    var runBoth := if |Coords(ledgerIn)| - |baseIn| > d then 0 else 1;
    StartupResumes(ledgerIn, ledgerOut, Start(c.i, c.j, runBoth));
    var p2 := Progress(ledgerIn, ledgerOut, [], 0, runBoth, false);
    var r := RunFrom(lib, p2, c.i, c.j);
    assert r == Resumed(lib, baseIn, s, ledgerIn, ledgerOut, d);
    ScheduleSuffix(iBegin, jBegin, d);
    if !r.halted {
      CompletedRunRecords(lib, p2, c.i, c.j);
      Reassemble(baseOut, baseIn, Coords(ledgerOut), Coords(ledgerIn),
                 Coords(r.ledgerOut), Coords(r.ledgerIn), s, d, runBoth);
    } else {
      StoppedRunRecords(lib, p2, c.i, c.j);
      var k := |Coords(r.ledgerOut)| - |Coords(ledgerOut)|;
      ReassembleStopped(baseOut, baseIn, Coords(ledgerOut), Coords(ledgerIn),
                        Coords(r.ledgerOut), Coords(r.ledgerIn), s, d, runBoth, k);
    }
  }

  /** The cell arithmetic behind a resume that stops again: the records still form an interrupted prefix. */
  lemma ReassembleStopped(po: seq<Cell>, pi: seq<Cell>, qo: seq<Cell>, qi: seq<Cell>, ro: seq<Cell>, ri: seq<Cell>,
                          s: seq<Cell>, d: nat, runBoth: int, k: int)
    requires d < |s|
    requires qo == po + s[..d]
    requires qi == pi + s[..d] || qi == pi + s[..d + 1]
    requires runBoth == if |qi| - |pi| > d then 0 else 1
    requires 0 <= k < |s[d..]|
    requires ro == qo + s[d..][..k]
    requires ri == qi + Gated(s[d..][..k], runBoth) || ri == qi + Gated(s[d..][..k + 1], runBoth)
    ensures ro == po + s[..d + k]
    ensures ri == pi + s[..d + k] || ri == pi + s[..d + k + 1]
  {
    hide Gated;
    PrefixJoin(s, d, k);
    PrefixJoin(s, d, k + 1);
    if runBoth == 0 {
      assert qi == pi + s[..d + 1];
      GatedSkipsResumed(s, d, k);
      GatedSkipsResumed(s, d, k + 1);
    } else {
      assert qi == pi + s[..d];
      GatedOne(s[d..][..k]);
      GatedOne(s[d..][..k + 1]);
    }
  }

  lemma PrefixJoin(s: seq<Cell>, d: nat, n: nat)
    requires d + n <= |s|
    ensures s[..d] + s[d..][..n] == s[..d + n]
  {
  }

  /** With `run_both` 0 the resumed cell d adds no IN record: its record is already there. */
  lemma GatedSkipsResumed(s: seq<Cell>, d: nat, n: nat)
    requires d < |s| && d + n <= |s|
    ensures s[..d + 1] + Gated(s[d..][..n], 0) == if n == 0 then s[..d + 1] else s[..d + n]
  {
    if n > 0 {
      assert s[..d + 1] + s[d..][..n][1..] == s[..d + n];
    }
  }

  lemma GatedOne(s: seq<Cell>)
    ensures Gated(s, 1) == s
  {
  }

  /** The cell arithmetic behind resumption: a stopped run's records plus the resumed run's records are the whole schedule. */
  lemma Reassemble(po: seq<Cell>, pi: seq<Cell>, qo: seq<Cell>, qi: seq<Cell>, ro: seq<Cell>, ri: seq<Cell>,
                   s: seq<Cell>, done: nat, runBoth: int)
    requires done < |s|
    requires qo == po + s[..done]
    requires qi == pi + s[..done] || qi == pi + s[..done + 1]
    requires runBoth == if |qi| - |pi| > done then 0 else 1
    requires ro == qo + s[done..] && ri == qi + Gated(s[done..], runBoth)
    ensures ro == po + s && ri == pi + s
  {
    assert s == s[..done] + s[done..];
    if runBoth == 0 {
      assert s == s[..done + 1] + s[done..][1..];
    }
  }

  /*
    Seeds.
  */

  /** Across the 3 x 10 grid the cell seeds are pairwise distinct. */
  lemma CellSeedsDistinct(i1: int, j1: int, i2: int, j2: int)
    requires 0 <= i1 < Runs && 0 <= j1 < Folds && 0 <= i2 < Runs && 0 <= j2 < Folds
    ensures CellSeed(i1, j1) == CellSeed(i2, j2) <==> i1 == i2 && j1 == j2
  {
  }

  /** No cell seed equals the seed any run starts from. */
  lemma CellSeedIsNoRunSeed(i: int, j: int, k: int)
    requires 0 <= i < Runs && 0 <= j < Folds && 0 <= k < Runs
    ensures CellSeed(i, j) != RunSeed(k)
  {
  }

  /** Outside the grid the seeds can collide: a resume typed at run -20 starts that
      run from seed 30, which is also the seed of cell (2, 5) later in the experiment. */
  lemma NegativeStartSeedsCollide()
    ensures Typable(-20) && Scheduled(-20, 0, Cell(2, 5))
    ensures RunSeed(-20) == CellSeed(2, 5)
  {
  }

  /** C's `int` range. */
  predicate FitsInt(x: int)
  {
    -0x8000_0000 <= x < 0x8000_0000
  }

  /** For start coordinates the prompt can deliver, the `int` expressions the seeds are
      computed from stay in range for every cell the loops reach, so only the
      conversion to `unsigned int` that Seed models takes place. */
  lemma SeedExpressionsFitInt(i: int, j: int)
    requires Typable(i) && Typable(j) && i < Runs && j < Folds
    ensures FitsInt(i + RunSeedOffset)
    ensures FitsInt(i * 10 + j + CellSeedOffset)
  {
  }

  /*
    Shuffling.
  */

  /** The seeds runs i, i + 1, ..., 2 shuffle the main data set with. */
  function RunSeeds(i: int): seq<nat>
    decreases Runs - i
  {
    if i >= Runs then [] else [RunSeed(i)] + RunSeeds(i + 1)
  }

  lemma {:induction false} RunFoldsShuffles(lib: Library, p: Progress, i: int, j: int)
    ensures RunFolds(lib, p, i, j).shuffles == p.shuffles
    decreases Folds - j
  {
    hide RunFolds, CellStep;
    if j >= Folds || p.halted {
      RunFoldsDone(lib, p, i, j);
    } else {
      var q := CellStep(lib, p, Cell(i, j));
      RunFoldsUnfold(lib, p, q, i, j);
      CellRecords(lib, p, Cell(i, j));
      RunFoldsShuffles(lib, q, i, j + 1);
    }
  }

  /**
    Shuffling accumulates: each run the loops enter shuffles once more, with
    seed i + 50, and no cell shuffles. A process that finishes has shuffled
    with the seeds of every remaining run in order; one that stops has
    shuffled with a non-empty prefix of them, ending with the run it stopped in.
  */
  lemma {:induction false} RunFromShuffles(lib: Library, p: Progress, i: int, jBegin: int)
    ensures var q := RunFrom(lib, p, i, jBegin);
            p.shuffles <= q.shuffles && q.shuffles[|p.shuffles|..] <= RunSeeds(i) &&
            (!q.halted ==> q.shuffles == p.shuffles + RunSeeds(i)) &&
            (q.halted && !p.halted ==> |q.shuffles| > |p.shuffles|)
    decreases Runs - i
  {
    hide RunFrom, RunFolds, CellStep;
    var q := RunFrom(lib, p, i, jBegin);
    if i >= Runs || p.halted {
      RunFromDone(lib, p, i, jBegin);
      assert q.shuffles[|p.shuffles|..] == [];
    } else {
      var p1 := p.(shuffles := p.shuffles + [RunSeed(i)], runSeed := lib.shuffle(RunSeed(i)));
      var q1 := RunFolds(lib, p1, i, jBegin);
      RunFromUnfold(lib, p, q1, i, jBegin);
      RunFoldsShuffles(lib, p1, i, jBegin);
      RunFromShuffles(lib, q1, i + 1, 0);
      assert q.shuffles[|p.shuffles|..] == [RunSeed(i)] + q.shuffles[|q1.shuffles|..];
    }
  }

  /** Run i shuffles with seed i + 50 before its first cell, which draws its
      partition from the seed that shuffling left behind. */
  lemma RunOpensWithShuffle(lib: Library, p: Progress, i: int, jBegin: int)
    requires !p.halted && i < Runs && jBegin < Folds
    ensures var p1 := p.(shuffles := p.shuffles + [RunSeed(i)], runSeed := lib.shuffle(RunSeed(i)));
            RunFrom(lib, p, i, jBegin) ==
            RunFrom(lib, RunFolds(lib, CellStep(lib, p1, Cell(i, jBegin)), i, jBegin + 1), i + 1, 0)
  {
    hide RunFrom, RunFolds, CellStep;
    var p1 := p.(shuffles := p.shuffles + [RunSeed(i)], runSeed := lib.shuffle(RunSeed(i)));
    var q1 := RunFolds(lib, p1, i, jBegin);
    RunFromUnfold(lib, p, q1, i, jBegin);
    RunFoldsUnfold(lib, p1, CellStep(lib, p1, Cell(i, jBegin)), i, jBegin);
  }

  /*
    Startup.
  */

  function HeaderCount(ls: seq<Line>): nat
  {
    multiset(ls)[Header]
  }

  /**
    If either ledger cannot be opened both are recreated, each with one
    header and no record (an existing one loses its records), and the
    experiment starts at (0, 0) with both regimes. Otherwise both ledgers
    keep their contents, no header is added, and the typed start is used.
  */
  lemma StartupProbe(inFile: Option<seq<Line>>, outFile: Option<seq<Line>>, typed: Start)
    ensures var o := Startup(inFile, outFile, typed);
            if inFile.None? || outFile.None? then
              HeaderCount(o.ledgerIn) == 1 && Coords(o.ledgerIn) == [] &&
              HeaderCount(o.ledgerOut) == 1 && Coords(o.ledgerOut) == [] &&
              o.start == Start(0, 0, 1)
            else
              o.ledgerIn == inFile.value && o.ledgerOut == outFile.value && o.start == typed
  {
    assert Coords([Header]) == [] by {
      assert [Header][1..] == [];
    }
  }

  lemma StartupResumes(ledgerIn: seq<Line>, ledgerOut: seq<Line>, typed: Start)
    ensures Startup(Some(ledgerIn), Some(ledgerOut), typed) == Opened(ledgerIn, ledgerOut, typed)
  {
  }

  /** Ledgers that hold only their headers, resumed at (0, 0) with both regimes,
      start exactly like a fresh experiment: no second header, no cell twice. */
  lemma HeaderOnlyResumeIsFreshStart(inFile: Option<seq<Line>>, typed: Start)
    ensures Startup(Some([Header]), Some([Header]), Start(0, 0, 1)) == Startup(inFile, None, typed)
  {
  }

  /*
    Recorded accuracies.
  */

  /** A record's accuracy, once negated back, is NaN or lies in [0, 1]. */
  predicate RecordInRange(l: Line)
  {
    l.Entry? && l.acc.Num? ==> 0.0 <= l.acc.value <= 1.0
  }

  predicate RecordsInRange(ls: seq<Line>)
  {
    forall k :: 0 <= k < |ls| ==> RecordInRange(ls[k])
  }

  lemma EvaluationRecordInRange(lib: Library, b: Budget, setting: Setting, seed: nat, c: Cell)
    requires EvaluationOf(lib, b, setting, seed).outcome.Returned?
    ensures var e := EvaluationOf(lib, b, setting, seed);
            RecordInRange(Entry(c.i, c.j, Negate(e.outcome.score), e.mse))
  {
    var t := lib.train(b, setting, seed);
    AccuracyInRange(t.model, lib.testing(setting));
  }

  lemma CellStepRecordsInRange(lib: Library, p: Progress, c: Cell)
    requires RecordsInRange(p.ledgerIn) && RecordsInRange(p.ledgerOut)
    ensures RecordsInRange(CellStep(lib, p, c).ledgerIn) && RecordsInRange(CellStep(lib, p, c).ledgerOut)
  {
    var setting := Setting(p.shuffles, c.j, p.runSeed);
    var seedOut := CellSeed(c.i, c.j);
    if p.runBoth == 1 {
      var e := EvaluationOf(lib, InBudget, setting, CellSeed(c.i, c.j));
      if e.outcome.Returned? {
        EvaluationRecordInRange(lib, InBudget, setting, CellSeed(c.i, c.j), c);
        seedOut := e.seed;
      }
    }
    if EvaluationOf(lib, OutBudget, setting, seedOut).outcome.Returned? {
      EvaluationRecordInRange(lib, OutBudget, setting, seedOut, c);
    }
  }

  lemma {:induction false} RunFoldsRecordsInRange(lib: Library, p: Progress, i: int, j: int)
    requires RecordsInRange(p.ledgerIn) && RecordsInRange(p.ledgerOut)
    ensures RecordsInRange(RunFolds(lib, p, i, j).ledgerIn) && RecordsInRange(RunFolds(lib, p, i, j).ledgerOut)
    decreases Folds - j
  {
    hide RunFolds, CellStep;
    if j >= Folds || p.halted {
      RunFoldsDone(lib, p, i, j);
    } else {
      var q := CellStep(lib, p, Cell(i, j));
      RunFoldsUnfold(lib, p, q, i, j);
      CellStepRecordsInRange(lib, p, Cell(i, j));
      RunFoldsRecordsInRange(lib, q, i, j + 1);
    }
  }

  /** Every accuracy the loops write to either ledger is NaN or a fraction in [0, 1]. */
  lemma {:induction false} RunFromRecordsInRange(lib: Library, p: Progress, i: int, jBegin: int)
    requires RecordsInRange(p.ledgerIn) && RecordsInRange(p.ledgerOut)
    ensures RecordsInRange(RunFrom(lib, p, i, jBegin).ledgerIn) && RecordsInRange(RunFrom(lib, p, i, jBegin).ledgerOut)
    decreases Runs - i
  {
    hide RunFrom, RunFolds, CellStep;
    if i >= Runs || p.halted {
      RunFromDone(lib, p, i, jBegin);
    } else {
      var p1 := p.(shuffles := p.shuffles + [RunSeed(i)], runSeed := lib.shuffle(RunSeed(i)));
      var q := RunFolds(lib, p1, i, jBegin);
      RunFromUnfold(lib, p, q, i, jBegin);
      RunFoldsRecordsInRange(lib, p1, i, jBegin);
      RunFromRecordsInRange(lib, q, i + 1, 0);
    }
  }
}
