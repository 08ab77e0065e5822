// The umbrella-sampling driver: force constants set once, then one window per
// linear index in row-major order, each window running the fixed sequence
// bias centres -> reference pose -> minimization -> equilibration -> production.
// `WindowEvents` and `Schedule` give the calls the driver makes, as a function
// of its inputs alone; the methods are proved to make exactly those calls.
// The per-window budgets are a `Config`; `Script` holds the values the driver uses.

module UmbrellaSampling {
  import opened WindowGrid
  import opened TrajectoryNaming
  import opened Engine

  /** The fixed per-window budgets of the sampling protocol. */
  datatype Config = Config(
    minimizerCalls: nat,
    minimizerTolerance: real,
    minimizerIterations: nat,
    equilibrationSteps: nat,
    productionFrames: nat,
    stepsPerFrame: nat)

  /** 50 minimizer calls of at most 20 iterations (tolerance 1), 5000 equilibration steps, 500 frames 200 steps apart. */
  const Script: Config := Config(50, 1.0, 20, 5000, 500, 200)

  const GridSize: nat := 25
  const KPsi: real := 100.0
  const KPhi: real := 100.0
  /** `math.pi`, written as the shortest decimal that rounds to it. */
  const Pi: real := 3.141592653589793

  /** Integrator steps per window: equilibration plus all production strides. */
  function StepsPerWindow(c: Config): nat
  {
    c.equilibrationSteps + c.productionFrames * c.stepsPerFrame
  }

  /** Position of the equilibration step among a window's calls. */
  function EquilibrateAt(c: Config): nat
  {
    4 + 2 * c.minimizerCalls
  }

  /** Number of calls one window makes. */
  function WindowLength(c: Config): nat
  {
    EquilibrateAt(c) + 3 + 3 * c.productionFrames
  }

  // ---------------------------------------------------------------------------
  // The calls of one window

  /** `n` copies of `block`, one after another. */
  function Repeat(block: seq<Event>, n: nat): seq<Event>
  {
    if n == 0 then [] else Repeat(block, n - 1) + block
  }

  /** Lines 54-58: set the two bias centres, then reset to the reference pose. */
  function BiasAndReset(psiCentre: real, phiCentre: real, reference: Positions): seq<Event>
  {
    [ParameterSet("psi", psiCentre), ParameterSet("phi", phiCentre), PositionsSet(reference)]
  }

  function MinimizeBlock(c: Config): seq<Event>
  {
    [Minimized(c.minimizerTolerance, c.minimizerIterations), EnergyRead]
  }

  /** One energy read, then the minimizer calls, each followed by an energy read. */
  function Minimization(c: Config): seq<Event>
  {
    [EnergyRead] + Repeat(MinimizeBlock(c), c.minimizerCalls)
  }

  function SampleBlock(c: Config, path: string): seq<Event>
  {
    [Stepped(c.stepsPerFrame), PositionsRead, FrameWritten(path)]
  }

  /** Open the file, take the strides each followed by one frame, close the file. */
  function Production(c: Config, path: string): seq<Event>
  {
    [Opened(path)] + Repeat(SampleBlock(c, path), c.productionFrames) + [Closed(path)]
  }

  /** Every call the driver makes for window `w` with the given centres. */
  function WindowEvents(c: Config, w: Window, psiCentre: real, phiCentre: real, reference: Positions): seq<Event>
  {
    BiasAndReset(psiCentre, phiCentre, reference) + Minimization(c) +
    [Stepped(c.equilibrationSteps)] + Production(c, TrajectoryPath(w))
  }

  // ---------------------------------------------------------------------------
  // Counting calls

  /** What to count in a call sequence. */
  datatype Tally = MinimizerRuns | IntegratorSteps | FramesTo(path: string)

  function Weight(t: Tally, e: Event): nat
  {
    match t
    case MinimizerRuns => if e.Minimized? then 1 else 0
    case IntegratorSteps => if e.Stepped? then e.steps else 0
    case FramesTo(p) => if e == FrameWritten(p) then 1 else 0
  }

  function Total(t: Tally, s: seq<Event>): nat
  {
    if s == [] then 0 else Total(t, s[..|s| - 1]) + Weight(t, s[|s| - 1])
  }

  lemma {:induction false} TotalAppend(t: Tally, a: seq<Event>, b: seq<Event>)
    ensures Total(t, a + b) == Total(t, a) + Total(t, b)
    decreases |b|
  {
    if b == [] {
      assert a + b == a;
    } else {
      assert (a + b)[..|a + b| - 1] == a + b[..|b| - 1];
      assert (a + b)[|a + b| - 1] == b[|b| - 1];
      TotalAppend(t, a, b[..|b| - 1]);
    }
  }

  lemma MulSucc(n: nat, k: nat)
    ensures (n + 1) * k == n * k + k
  {
  }

  lemma {:induction false} TotalRepeat(t: Tally, block: seq<Event>, n: nat)
    ensures Total(t, Repeat(block, n)) == n * Total(t, block)
  {
    if n > 0 {
      TotalRepeat(t, block, n - 1);
      TotalAppend(t, Repeat(block, n - 1), block);
      MulSucc(n - 1, Total(t, block));
    }
  }

  /** A repetition has the expected length and holds only calls of its block. */
  lemma {:induction false} RepeatShape(block: seq<Event>, n: nat)
    ensures |Repeat(block, n)| == n * |block|
    ensures forall e :: e in Repeat(block, n) ==> e in block
  {
    if n > 0 {
      RepeatShape(block, n - 1);
    }
  }

  /** Copy `i` of the block starts `i * |block|` calls in. */
  lemma {:induction false} RepeatAt(block: seq<Event>, n: nat, i: nat, j: nat)
    requires i < n && j < |block|
    ensures i * |block| + j < |Repeat(block, n)|
    ensures Repeat(block, n)[i * |block| + j] == block[j]
  {
    RepeatShape(block, n - 1);
    MulSucc(n - 1, |block|);
    if i < n - 1 {
      RepeatAt(block, n - 1, i, j);
    } else {
      assert i * |block| == |Repeat(block, n - 1)|;
    }
  }

  lemma TotalSingle(t: Tally, x: Event)
    ensures Total(t, [x]) == Weight(t, x)
  {
    assert [x][..0] == [];
  }

  /** The count of a two- or three-call sequence is the sum of its calls' weights. */
  lemma TotalOfThree(t: Tally, x: Event, y: Event, z: Event)
    ensures Total(t, [x, y]) == Weight(t, x) + Weight(t, y)
    ensures Total(t, [x, y, z]) == Weight(t, x) + Weight(t, y) + Weight(t, z)
  {
    assert [x, y] == [x] + [y];
    assert [x, y, z] == [x] + [y] + [z];
    TotalAppend(t, [x], [y]);
    TotalAppend(t, [x] + [y], [z]);
    TotalSingle(t, x);
    TotalSingle(t, y);
    TotalSingle(t, z);
  }

  lemma MinimizationShape(c: Config)
    ensures |Minimization(c)| == 1 + 2 * c.minimizerCalls
    ensures forall e :: e in Minimization(c) ==>
      e == EnergyRead || e == Minimized(c.minimizerTolerance, c.minimizerIterations)
    ensures Total(MinimizerRuns, Minimization(c)) == c.minimizerCalls
    ensures Total(IntegratorSteps, Minimization(c)) == 0
    ensures forall p :: Total(FramesTo(p), Minimization(c)) == 0
  {
    var r := Repeat(MinimizeBlock(c), c.minimizerCalls);
    RepeatShape(MinimizeBlock(c), c.minimizerCalls);
    forall t: Tally ensures Total(t, Minimization(c)) == c.minimizerCalls * Total(t, MinimizeBlock(c)) + Weight(t, EnergyRead)
                    ensures Total(t, MinimizeBlock(c)) == Weight(t, MinimizeBlock(c)[0]) {
      TotalAppend(t, [EnergyRead], r);
      TotalRepeat(t, MinimizeBlock(c), c.minimizerCalls);
      TotalSingle(t, EnergyRead);
      TotalOfThree(t, Minimized(c.minimizerTolerance, c.minimizerIterations), EnergyRead, EnergyRead);
    }
  }

  /**
   * The minimization phase alternates: energy reads at even positions (the
   * first read included), minimizer calls at odd ones, so every minimizer call
   * is followed by a read.
   */
  lemma MinimizationOrder(c: Config)
    ensures |Minimization(c)| == 1 + 2 * c.minimizerCalls
    ensures forall i :: 0 <= i < |Minimization(c)| ==>
      Minimization(c)[i] == if i % 2 == 0 then EnergyRead else Minimized(c.minimizerTolerance, c.minimizerIterations)
  {
    RepeatShape(MinimizeBlock(c), c.minimizerCalls);
    forall i | 1 <= i < |Minimization(c)|
      ensures Minimization(c)[i] == MinimizeBlock(c)[(i - 1) % 2]
    {
      RepeatAt(MinimizeBlock(c), c.minimizerCalls, (i - 1) / 2, (i - 1) % 2);
    }
  }

  lemma ProductionShape(c: Config, path: string)
    ensures |Production(c, path)| == 2 + 3 * c.productionFrames
    ensures Production(c, path)[0] == Opened(path)
    ensures Production(c, path)[|Production(c, path)| - 1] == Closed(path)
    ensures forall i :: 0 < i < |Production(c, path)| - 1 ==> Production(c, path)[i] in SampleBlock(c, path)
    ensures Total(MinimizerRuns, Production(c, path)) == 0
    ensures Total(IntegratorSteps, Production(c, path)) == c.productionFrames * c.stepsPerFrame
    ensures forall p :: Total(FramesTo(p), Production(c, path)) == if p == path then c.productionFrames else 0
    ensures forall i :: 0 < i < |Production(c, path)| - 1 ==> Production(c, path)[i] == SampleBlock(c, path)[(i - 1) % 3]
  {
    var r := Repeat(SampleBlock(c, path), c.productionFrames);
    RepeatShape(SampleBlock(c, path), c.productionFrames);
    forall i | 0 < i < |Production(c, path)| - 1
      ensures Production(c, path)[i] == SampleBlock(c, path)[(i - 1) % 3]
      ensures Production(c, path)[i] in SampleBlock(c, path)
    {
      assert Production(c, path)[i] == r[i - 1];
      RepeatAt(SampleBlock(c, path), c.productionFrames, (i - 1) / 3, (i - 1) % 3);
    }
    forall t: Tally ensures Total(t, Production(c, path)) == c.productionFrames * Total(t, SampleBlock(c, path))
                            + Weight(t, Opened(path)) + Weight(t, Closed(path))
                    ensures Total(t, SampleBlock(c, path))
                            == Weight(t, Stepped(c.stepsPerFrame)) + Weight(t, PositionsRead) + Weight(t, FrameWritten(path)) {
      TotalAppend(t, [Opened(path)], r);
      TotalAppend(t, [Opened(path)] + r, [Closed(path)]);
      TotalRepeat(t, SampleBlock(c, path), c.productionFrames);
      TotalOfThree(t, Stepped(c.stepsPerFrame), PositionsRead, FrameWritten(path));
      TotalSingle(t, Opened(path));
      TotalSingle(t, Closed(path));
    }
  }

  /** Every frame is written right after a stride of the integrator and a read of the positions. */
  lemma FrameAfterStride(c: Config, path: string)
    ensures var e := Production(c, path);
      forall i :: 0 <= i < |e| && e[i].FrameWritten? ==>
        2 < i && e[i - 2] == Stepped(c.stepsPerFrame) && e[i - 1] == PositionsRead
  {
    var e := Production(c, path);
    ProductionShape(c, path);
    forall i | 0 <= i < |e| && e[i].FrameWritten?
      ensures 2 < i && e[i - 2] == Stepped(c.stepsPerFrame) && e[i - 1] == PositionsRead
    {
      assert 0 < i < |e| - 1;
      assert (i - 1) % 3 == 2;
      assert (i - 3) % 3 == 0 && (i - 2) % 3 == 1;
    }
  }

  /** The positions of a window's landmark calls: centres, reset, equilibration, open, close. */
  lemma WindowEntry(c: Config, w: Window, psiCentre: real, phiCentre: real, reference: Positions)
    ensures var e, q := WindowEvents(c, w, psiCentre, phiCentre, reference), EquilibrateAt(c);
      |e| == WindowLength(c) &&
      e[0] == ParameterSet("psi", psiCentre) && e[1] == ParameterSet("phi", phiCentre) &&
      e[2] == PositionsSet(reference) &&
      e[q] == Stepped(c.equilibrationSteps) &&
      e[q + 1] == Opened(TrajectoryPath(w)) &&
      e[|e| - 1] == Closed(TrajectoryPath(w))
  {
    var path := TrajectoryPath(w);
    MinimizationShape(c);
    ProductionShape(c, path);
    var a, b, s, d := BiasAndReset(psiCentre, phiCentre, reference), Minimization(c),
                      [Stepped(c.equilibrationSteps)], Production(c, path);
    var e := WindowEvents(c, w, psiCentre, phiCentre, reference);
    assert e == a + b + s + d;
    assert e[EquilibrateAt(c) + 1] == d[0];
    assert e[|e| - 1] == d[|d| - 1];
  }

  /**
   * The calls of one window come in the fixed order: centres, reset, then only
   * minimizer calls until the single equilibration step, then the file is opened,
   * every further step and every frame happens while it is open, and it is closed last.
   */
  lemma WindowOrder(c: Config, w: Window, psiCentre: real, phiCentre: real, reference: Positions)
    ensures var e, path, q := WindowEvents(c, w, psiCentre, phiCentre, reference), TrajectoryPath(w), EquilibrateAt(c);
      |e| == WindowLength(c) &&
      e[0] == ParameterSet("psi", psiCentre) && e[1] == ParameterSet("phi", phiCentre) &&
      e[2] == PositionsSet(reference) &&
      e[q] == Stepped(c.equilibrationSteps) &&
      e[q + 1] == Opened(path) &&
      e[|e| - 1] == Closed(path) &&
      (forall i :: 0 <= i < |e| && (e[i].ParameterSet? || e[i].PositionsSet?) ==> i < 3) &&
      (forall i :: 0 <= i < |e| && e[i].Minimized? ==>
        2 < i < q && e[i] == Minimized(c.minimizerTolerance, c.minimizerIterations)) &&
      (forall i :: 0 <= i < |e| && (e[i].Stepped? || e[i].FrameWritten?) ==>
        i == q || q + 1 < i < |e| - 1) &&
      (forall i :: 0 <= i < |e| && e[i].FrameWritten? ==> e[i].path == path) &&
      (forall i :: 0 <= i < |e| && (e[i].Opened? || e[i].Closed?) ==> i == q + 1 || i == |e| - 1)
  {
    var path, q := TrajectoryPath(w), EquilibrateAt(c);
    var a, b, s, d := BiasAndReset(psiCentre, phiCentre, reference), Minimization(c),
                      [Stepped(c.equilibrationSteps)], Production(c, path);
    var e := WindowEvents(c, w, psiCentre, phiCentre, reference);
    WindowEntry(c, w, psiCentre, phiCentre, reference);
    MinimizationShape(c);
    ProductionShape(c, path);
    assert e == a + b + s + d;
    forall i | 0 <= i < |e|
      ensures (e[i].ParameterSet? || e[i].PositionsSet?) ==> i < 3
      ensures e[i].Minimized? ==>
        2 < i < q && e[i] == Minimized(c.minimizerTolerance, c.minimizerIterations)
      ensures (e[i].Stepped? || e[i].FrameWritten?) ==> i == q || q + 1 < i < |e| - 1
      ensures e[i].FrameWritten? ==> e[i].path == path
      ensures (e[i].Opened? || e[i].Closed?) ==> i == q + 1 || i == |e| - 1
    {
      if 3 <= i < q {
        assert e[i] == b[i - 3] && b[i - 3] in b;
      } else if q < i {
        assert e[i] == d[i - q - 1];
      }
    }
  }

  /**
   * Per window: a fixed number of minimizer calls, a fixed number of integrator
   * steps, and a fixed number of frames, all into the window's own file; none of
   * it depends on the window or on the grid size.
   */
  lemma WindowTotals(c: Config, w: Window, psiCentre: real, phiCentre: real, reference: Positions)
    ensures var e := WindowEvents(c, w, psiCentre, phiCentre, reference);
      Total(MinimizerRuns, e) == c.minimizerCalls &&
      Total(IntegratorSteps, e) == StepsPerWindow(c) &&
      forall p :: Total(FramesTo(p), e) == if p == TrajectoryPath(w) then c.productionFrames else 0
  {
    var path := TrajectoryPath(w);
    var a, b, s, d := BiasAndReset(psiCentre, phiCentre, reference), Minimization(c),
                      [Stepped(c.equilibrationSteps)], Production(c, path);
    MinimizationShape(c);
    ProductionShape(c, path);
    forall t: Tally ensures Total(t, a + b + s + d) == Total(t, a) + Total(t, b) + Total(t, s) + Total(t, d)
                    ensures Total(t, a) == Weight(t, a[0]) + Weight(t, a[1]) + Weight(t, a[2])
                    ensures Total(t, s) == Weight(t, s[0]) {
      TotalAppend(t, a, b);
      TotalAppend(t, a + b, s);
      TotalAppend(t, a + b + s, d);
      TotalOfThree(t, a[0], a[1], a[2]);
      TotalSingle(t, s[0]);
    }
  }

  // ---------------------------------------------------------------------------
  // The calls of the whole loop

  /** Every window of `ws` has a centre on both grids. */
  predicate OnGrids(ws: seq<Window>, psi: seq<real>, phi: seq<real>)
  {
    forall i :: 0 <= i < |ws| ==> ws[i].psiIndex < |psi| && ws[i].phiIndex < |phi|
  }

  /** The calls made for the windows `ws`, in order, each with centres psi[psi_index] and phi[phi_index]. */
  function Schedule(c: Config, ws: seq<Window>, psi: seq<real>, phi: seq<real>, reference: Positions): seq<Event>
    requires OnGrids(ws, psi, phi)
  {
    if ws == [] then []
    else
      var w := ws[|ws| - 1];
      Schedule(c, ws[..|ws| - 1], psi, phi, reference) + WindowEvents(c, w, psi[w.psiIndex], phi[w.phiIndex], reference)
  }

  /** Growing the list of windows by one window grows the calls by that window's calls. */
  lemma ScheduleExtend(c: Config, ws: seq<Window>, psi: seq<real>, phi: seq<real>, reference: Positions, k: nat)
    requires OnGrids(ws, psi, phi) && k < |ws|
    ensures OnGrids(ws[..k], psi, phi) && OnGrids(ws[..k + 1], psi, phi)
    ensures Schedule(c, ws[..k + 1], psi, phi, reference)
            == Schedule(c, ws[..k], psi, phi, reference)
               + WindowEvents(c, ws[k], psi[ws[k].psiIndex], phi[ws[k].phiIndex], reference)
  {
    assert ws[..k + 1][..k] == ws[..k];
  }

  /**
   * `ScheduleExtend` with the calls made before the loop in front. It states no
   * new fact; callers use it so the solver need not re-associate the appends.
   */
  lemma ScheduleAfter(c: Config, ws: seq<Window>, psi: seq<real>, phi: seq<real>, reference: Positions, k: nat,
                      start: seq<Event>)
    requires OnGrids(ws, psi, phi) && k < |ws|
    ensures OnGrids(ws[..k], psi, phi) && OnGrids(ws[..k + 1], psi, phi)
    ensures start + Schedule(c, ws[..k + 1], psi, phi, reference)
            == start + Schedule(c, ws[..k], psi, phi, reference)
               + WindowEvents(c, ws[k], psi[ws[k].psiIndex], phi[ws[k].phiIndex], reference)
  {
    ScheduleExtend(c, ws, psi, phi, reference, k);
  }

  lemma {:induction false} ScheduleLength(c: Config, ws: seq<Window>, psi: seq<real>, phi: seq<real>, reference: Positions)
    requires OnGrids(ws, psi, phi)
    ensures |Schedule(c, ws, psi, phi, reference)| == |ws| * WindowLength(c)
  {
    if ws != [] {
      var w := ws[|ws| - 1];
      ScheduleLength(c, ws[..|ws| - 1], psi, phi, reference);
      WindowEntry(c, w, psi[w.psiIndex], phi[w.phiIndex], reference);
      MulSucc(|ws| - 1, WindowLength(c));
    }
  }

  /** The calls of the first `k` windows are a prefix of the calls of all of them. */
  lemma {:induction false} SchedulePrefix(c: Config, ws: seq<Window>, psi: seq<real>, phi: seq<real>, reference: Positions, k: nat)
    requires OnGrids(ws, psi, phi) && k <= |ws|
    ensures OnGrids(ws[..k], psi, phi)
    ensures Schedule(c, ws[..k], psi, phi, reference) <= Schedule(c, ws, psi, phi, reference)
    decreases |ws|
  {
    if k < |ws| {
      var init := ws[..|ws| - 1];
      assert ws[..k] == init[..k];
      SchedulePrefix(c, init, psi, phi, reference, k);
    } else {
      assert ws[..k] == ws;
    }
  }

  /**
   * The i-th window's calls, with its own centres, come right after the calls
   * of the i windows before it, which number i times a window's length.
   */
  lemma ScheduleSlice(c: Config, ws: seq<Window>, psi: seq<real>, phi: seq<real>, reference: Positions, i: nat)
    requires OnGrids(ws, psi, phi) && i < |ws|
    ensures OnGrids(ws[..i], psi, phi)
    ensures var before := Schedule(c, ws[..i], psi, phi, reference);
      |before| == i * WindowLength(c) &&
      before + WindowEvents(c, ws[i], psi[ws[i].psiIndex], phi[ws[i].phiIndex], reference)
        <= Schedule(c, ws, psi, phi, reference)
  {
    ScheduleExtend(c, ws, psi, phi, reference, i);
    SchedulePrefix(c, ws, psi, phi, reference, i + 1);
    ScheduleLength(c, ws[..i], psi, phi, reference);
  }

  /**
   * Across the loop, only the bias centres are written (never a force constant),
   * every position reset uses the reference pose, and every minimizer call has
   * the same tolerance and iteration budget.
   */
  lemma {:induction false} ScheduleWrites(c: Config, ws: seq<Window>, psi: seq<real>, phi: seq<real>, reference: Positions)
    requires OnGrids(ws, psi, phi)
    ensures forall e :: e in Schedule(c, ws, psi, phi, reference) ==>
      (e.ParameterSet? ==> e.name == "psi" || e.name == "phi") &&
      (e.PositionsSet? ==> e.positions == reference) &&
      (e.Minimized? ==> e == Minimized(c.minimizerTolerance, c.minimizerIterations))
  {
    if ws != [] {
      ScheduleWrites(c, ws[..|ws| - 1], psi, phi, reference);
      var w := ws[|ws| - 1];
      var e := WindowEvents(c, w, psi[w.psiIndex], phi[w.phiIndex], reference);
      WindowOrder(c, w, psi[w.psiIndex], phi[w.phiIndex], reference);
      forall x | x in e
        ensures (x.ParameterSet? ==> x.name == "psi" || x.name == "phi")
        ensures (x.PositionsSet? ==> x.positions == reference)
        ensures (x.Minimized? ==> x == Minimized(c.minimizerTolerance, c.minimizerIterations))
      {
        var i :| 0 <= i < |e| && e[i] == x;
      }
    }
  }

  /**
   * Minimizer calls and integrator steps grow by the same fixed amount per window,
   * so the whole loop's cost is known in advance.
   */
  lemma {:induction false} ScheduleTotals(c: Config, ws: seq<Window>, psi: seq<real>, phi: seq<real>, reference: Positions)
    requires OnGrids(ws, psi, phi)
    ensures Total(MinimizerRuns, Schedule(c, ws, psi, phi, reference)) == |ws| * c.minimizerCalls
    ensures Total(IntegratorSteps, Schedule(c, ws, psi, phi, reference)) == |ws| * StepsPerWindow(c)
  {
    if ws != [] {
      var init, w := ws[..|ws| - 1], ws[|ws| - 1];
      ScheduleTotals(c, init, psi, phi, reference);
      WindowTotals(c, w, psi[w.psiIndex], phi[w.phiIndex], reference);
      var prev, last := Schedule(c, init, psi, phi, reference), WindowEvents(c, w, psi[w.psiIndex], phi[w.phiIndex], reference);
      TotalAppend(MinimizerRuns, prev, last);
      TotalAppend(IntegratorSteps, prev, last);
      MulSucc(|init|, c.minimizerCalls);
      MulSucc(|init|, StepsPerWindow(c));
    }
  }

  /**
   * When no window repeats, the file of each listed window receives exactly the
   * fixed number of frames and no other path receives any.
   */
  lemma {:induction false} ScheduleFrames(c: Config, ws: seq<Window>, psi: seq<real>, phi: seq<real>, reference: Positions, w: Window)
    requires OnGrids(ws, psi, phi)
    requires forall i, j :: 0 <= i < j < |ws| ==> ws[i] != ws[j]
    ensures Total(FramesTo(TrajectoryPath(w)), Schedule(c, ws, psi, phi, reference))
            == if w in ws then c.productionFrames else 0
  {
    if ws != [] {
      var init, v := ws[..|ws| - 1], ws[|ws| - 1];
      ScheduleFrames(c, init, psi, phi, reference, w);
      WindowTotals(c, v, psi[v.psiIndex], phi[v.phiIndex], reference);
      TotalAppend(FramesTo(TrajectoryPath(w)), Schedule(c, init, psi, phi, reference),
                  WindowEvents(c, v, psi[v.psiIndex], phi[v.phiIndex], reference));
      TrajectoryPathInjective(w, v);
      assert ws == init + [v];
      assert v !in init;
    }
  }

  /** The loop's windows are all on the grids of size M. */
  lemma LoopOnGrids(m: nat, psi: seq<real>, phi: seq<real>)
    requires |psi| == m && |phi| == m
    ensures OnGrids(Windows(m), psi, phi)
  {
    WindowsAreGrid(m);
    forall i | 0 <= i < |Windows(m)| ensures InGrid(Windows(m)[i], m) {
      assert Windows(m)[i] in Windows(m);
    }
  }

  /**
   * Over the whole loop, the file of each grid window receives exactly the fixed
   * number of frames and no other window's name receives any.
   */
  lemma LoopFrames(c: Config, m: nat, psi: seq<real>, phi: seq<real>, reference: Positions, w: Window)
    requires |psi| == m && |phi| == m
    ensures OnGrids(Windows(m), psi, phi)
    ensures Total(FramesTo(TrajectoryPath(w)), Schedule(c, Windows(m), psi, phi, reference))
            == if InGrid(w, m) then c.productionFrames else 0
  {
    LoopOnGrids(m, psi, phi);
    WindowsAreGrid(m);
    ScheduleFrames(c, Windows(m), psi, phi, reference, w);
  }

  /**
   * Loop iteration `idx` handles window (idx / M, idx % M): it adds that
   * window's calls, with centres psi[idx / M] and phi[idx % M], after the
   * calls of the iterations before it.
   */
  lemma LoopStep(c: Config, m: nat, psi: seq<real>, phi: seq<real>, reference: Positions, idx: nat)
    requires |psi| == m && |phi| == m && idx < m * m
    ensures 0 < m && idx / m < m && idx % m < m
    ensures idx < |Windows(m)| && Windows(m)[idx] == Window(idx / m, idx % m)
    ensures OnGrids(Windows(m)[..idx], psi, phi) && OnGrids(Windows(m)[..idx + 1], psi, phi)
    ensures Schedule(c, Windows(m)[..idx + 1], psi, phi, reference)
            == Schedule(c, Windows(m)[..idx], psi, phi, reference)
               + WindowEvents(c, Window(idx / m, idx % m), psi[idx / m], phi[idx % m], reference)
  {
    WindowsIndex(m, idx);
    LoopOnGrids(m, psi, phi);
    ScheduleExtend(c, Windows(m), psi, phi, reference, idx);
  }

  // ---------------------------------------------------------------------------
  // The driver

  /** Every global parameter other than the two bias centres keeps its presence and value. */
  ghost predicate OnlyCentresChanged(before: map<string, real>, after: map<string, real>)
  {
    forall k :: k != "psi" && k != "phi" ==>
      (k in after <==> k in before) && (k in before ==> after[k] == before[k])
  }

  /** Two rounds of writing only the centres write only the centres. */
  lemma OnlyCentresChangedTrans(a: map<string, real>, b: map<string, real>, c: map<string, real>)
    requires OnlyCentresChanged(a, b) && OnlyCentresChanged(b, c)
    ensures OnlyCentresChanged(a, c)
  {
  }

  /**
   * Writing only the centres leaves both force constants at the values set
   * before the loop: k_psi and k_phi are set once.
   */
  lemma ForceConstantsKept(defaults: map<string, real>, p: map<string, real>)
    requires OnlyCentresChanged(defaults["k_psi" := KPsi]["k_phi" := KPhi], p)
    ensures "k_psi" in p && p["k_psi"] == KPsi
    ensures "k_phi" in p && p["k_phi"] == KPhi
  {
  }

  /** `file` is the closed trajectory at `path` holding `frames` frames. */
  predicate Written(file: TrajectoryFile, path: string, frames: nat)
    reads file
  {
    file.path == path && |file.frames| == frames && !file.isOpen
  }

  /** Lines 59-64: one energy read, then the short minimizer runs; energies steer nothing. */
  method RunMinimization(ctx: Context, c: Config)
    modifies ctx, ctx.journal
    ensures ctx.parameters == old(ctx.parameters)
    ensures ctx.journal.events == old(ctx.journal.events) + Minimization(c)
  {
    var journal := ctx.journal;
    var energy := ctx.GetPotentialEnergy();
    var i := 0;
    while i < c.minimizerCalls
      invariant i <= c.minimizerCalls
      invariant ctx.parameters == old(ctx.parameters)
      invariant journal.events == old(journal.events) + [EnergyRead] + Repeat(MinimizeBlock(c), i)
    {
      ctx.Minimize(c.minimizerTolerance, c.minimizerIterations);
      energy := ctx.GetPotentialEnergy();
      i := i + 1;
    }
  }

  /** Lines 70-77: open the window's file, write one frame after each stride, close it. */
  method RunProduction(ctx: Context, c: Config, path: string) returns (file: TrajectoryFile)
    modifies ctx, ctx.journal
    ensures fresh(file) && file.journal == ctx.journal
    ensures Written(file, path, c.productionFrames)
    ensures ctx.parameters == old(ctx.parameters)
    ensures ctx.journal.events == old(ctx.journal.events) + Production(c, path)
  {
    var journal := ctx.journal;
    file := new TrajectoryFile.Open(journal, path);
    var i := 0;
    while i < c.productionFrames
      invariant i <= c.productionFrames
      invariant file.path == path && file.journal == journal && file.isOpen && |file.frames| == i
      invariant ctx.parameters == old(ctx.parameters)
      invariant journal.events == old(journal.events) + [Opened(path)] + Repeat(SampleBlock(c, path), i)
    {
      ctx.Step(c.stepsPerFrame);
      var positions := ctx.GetPositions();
      file.WriteModel(positions);
      i := i + 1;
    }
    file.Close();
  }

  /** Lines 54-77: sample one window on the shared context. */
  method SampleWindow(ctx: Context, c: Config, w: Window, psiCentre: real, phiCentre: real, reference: Positions)
    returns (file: TrajectoryFile)
    modifies ctx, ctx.journal
    ensures fresh(file) && file.journal == ctx.journal
    ensures Written(file, TrajectoryPath(w), c.productionFrames)
    ensures ctx.parameters == old(ctx.parameters)["psi" := psiCentre]["phi" := phiCentre]
    ensures ctx.journal.events == old(ctx.journal.events) + WindowEvents(c, w, psiCentre, phiCentre, reference)
  {
    ghost var before := ctx.journal.events;
    ctx.SetParameter("psi", psiCentre);
    ctx.SetParameter("phi", phiCentre);
    ctx.SetPositions(reference);
    RunMinimization(ctx, c);
    ctx.Step(c.equilibrationSteps);
    file := RunProduction(ctx, c, TrajectoryPath(w));
    assert ctx.journal.events == before + BiasAndReset(psiCentre, phiCentre, reference) + Minimization(c)
                                 + [Stepped(c.equilibrationSteps)] + Production(c, TrajectoryPath(w));
  }

  /** Lines 48-49: `psi_index = idx // M`, `phi_index = idx % M` is the loop's idx-th window. */
  method SplitIndex(idx: nat, m: nat) returns (psiIndex: nat, phiIndex: nat)
    requires idx < m * m
    ensures psiIndex < m && phiIndex < m
    ensures idx < |Windows(m)| && Windows(m)[idx] == Window(psiIndex, phiIndex)
  {
    WindowsIndex(m, idx);
    psiIndex := idx / m;
    phiIndex := idx % m;
  }

  /**
   * Lines 48-77, one pass of the main loop: window `idx` is sampled, and the
   * calls so far grow from those of the first `idx` windows to those of the
   * first `idx + 1`.
   */
  method SampleNext(ctx: Context, c: Config, m: nat, psi: seq<real>, phi: seq<real>, reference: Positions,
                    idx: nat, ghost start: seq<Event>)
    returns (file: TrajectoryFile)
    requires |psi| == m && |phi| == m && idx < m * m && OnGrids(Windows(m), psi, phi)
    requires ctx.journal.events == start + Schedule(c, Windows(m)[..idx], psi, phi, reference)
    modifies ctx, ctx.journal
    ensures idx < |Windows(m)|
    ensures fresh(file) && Written(file, TrajectoryPath(Windows(m)[idx]), c.productionFrames)
    ensures OnlyCentresChanged(old(ctx.parameters), ctx.parameters)
    ensures ctx.journal.events == start + Schedule(c, Windows(m)[..idx + 1], psi, phi, reference)
  {
    var psiIndex, phiIndex := SplitIndex(idx, m);
    var w := Window(psiIndex, phiIndex);
    ScheduleAfter(c, Windows(m), psi, phi, reference, idx, start);
    file := SampleWindow(ctx, c, w, psi[w.psiIndex], phi[w.phiIndex], reference);
  }

  /**
   * Lines 47-77: the main loop over all M*M windows, reusing one context. As in
   * the script, each pass closes its own file and keeps no handle to it.
   */
  method RunWindows(ctx: Context, c: Config, m: nat, psi: seq<real>, phi: seq<real>, reference: Positions)
    requires |psi| == m && |phi| == m
    modifies ctx, ctx.journal
    ensures OnGrids(Windows(m), psi, phi)
    ensures ctx.journal.events == old(ctx.journal.events) + Schedule(c, Windows(m), psi, phi, reference)
    ensures OnlyCentresChanged(old(ctx.parameters), ctx.parameters)
  {
    LoopOnGrids(m, psi, phi);
    ghost var ws := Windows(m);
    assert ws[..0] == [];
    var idx := 0;
    while idx < m * m
      invariant idx <= m * m
      invariant ctx.journal.events == old(ctx.journal.events) + Schedule(c, ws[..idx], psi, phi, reference)
      invariant OnlyCentresChanged(old(ctx.parameters), ctx.parameters)
    {
      ghost var parameters := ctx.parameters;
      var file := SampleNext(ctx, c, m, psi, phi, reference, idx, old(ctx.journal.events));
      OnlyCentresChangedTrans(old(ctx.parameters), parameters, ctx.parameters);
      idx := idx + 1;
    }
    assert ws[..idx] == ws;
  }

  /**
   * Lines 27-77: build the single context, set both force constants once, lay
   * out the two grids over [-pi, pi), and run the loop.
   */
  method RunUmbrellaSampling(journal: Journal, defaults: map<string, real>, reference: Positions)
    returns (ctx: Context)
    modifies journal
    ensures fresh(ctx) && ctx.journal == journal
    ensures OnGrids(Windows(GridSize), Linspace(-Pi, Pi, GridSize), Linspace(-Pi, Pi, GridSize))
    ensures journal.events == old(journal.events)
      + [ParameterSet("k_psi", KPsi), ParameterSet("k_phi", KPhi)]
      + Schedule(Script, Windows(GridSize), Linspace(-Pi, Pi, GridSize), Linspace(-Pi, Pi, GridSize), reference)
    ensures OnlyCentresChanged(defaults["k_psi" := KPsi]["k_phi" := KPhi], ctx.parameters)
    ensures "k_psi" in ctx.parameters && ctx.parameters["k_psi"] == KPsi
    ensures "k_phi" in ctx.parameters && ctx.parameters["k_phi"] == KPhi
  {
    ghost var before := journal.events;
    ctx := new Context(journal, defaults);
    ctx.SetParameter("k_psi", KPsi);
    ctx.SetParameter("k_phi", KPhi);
    assert journal.events == before + [ParameterSet("k_psi", KPsi), ParameterSet("k_phi", KPhi)];
    var psi := Linspace(-Pi, Pi, GridSize);
    var phi := Linspace(-Pi, Pi, GridSize);
    RunWindows(ctx, Script, GridSize, psi, phi, reference);
    ForceConstantsKept(defaults, ctx.parameters);
  }
}
