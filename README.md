# Umbrella-sampling window scheduler (dialanine example of FastMBAR)

This project models the driver script `examples/dialanine/script/umbrella_sampling.py`. The script sets up one OpenMM context and sets the two force constants `k_psi` and `k_phi` once. It then samples M x M = 625 windows on a grid over the backbone dihedrals psi and phi, one after another. For each linear index `idx`:

- the window is `(idx // M, idx % M)`;
- the two bias centres are set to `psi[psi_index]` and `phi[phi_index]`;
- the atoms are reset to the reference pose;
- the system is minimized 50 times (at most 20 iterations each), with an energy read after each call;
- the system is equilibrated for 5000 steps;
- 500 frames, 200 steps apart, are written to `./output/traj/traj_psi_{psi_index}_phi_{phi_index}.dcd`.

The model has four modules:

- `WindowGrid` (`windows.dfy`) models the window grid:
  - the split of a linear index into a `Window`;
  - the sequence `Windows(M)` of windows that the loop visits;
  - `Linspace`, the half-open grid of centres, over exact reals.
- `TrajectoryNaming` (`naming.dfy`) models the trajectory path of a window. Each index is rendered as the shortest decimal, the way an f-string renders a non-negative int.
- `Engine` (`engine.dfy`) models the OpenMM context, its integrator and the DCD file as classes. Each call is appended as an `Event` to a shared `Journal`. The physics is not modelled: the minimizer and the integrator move the atoms to unconstrained positions, and an energy read returns an unconstrained value.
- `UmbrellaSampling` (`protocol.dfy`) models the driver:
  - `WindowEvents` gives one window's calls and `Schedule` gives the calls for a list of windows. Both are functions of the inputs alone. Energies are never read back into a decision, so they cannot steer the calls.
  - The driver methods follow the script's loops. Each method is proved to make exactly the calls of these functions, and to change only the bias centres among the context's global parameters.
  - Lemmas over `WindowEvents` and `Schedule` state the ordering and counting properties of the protocol.

The per-window budgets are a `Config` value. `Script` holds the script's values (50 calls, tolerance 1, 20 iterations, 5000 steps, 500 frames, stride 200), and the lemmas hold for every `Config`.

## Model

| member | source | states |
|---|---|---|
| WindowGrid.Decompose | examples/dialanine/script/umbrella_sampling.py:48-49 | `phi_index = idx % M` is below M, and `psi_index * M + phi_index` gives back `idx` |
| WindowGrid.DecomposeInGrid | examples/dialanine/script/umbrella_sampling.py:47-49 | for every `idx` in `range(M**2)`, M is positive and both indices lie in `[0, M)` |
| WindowGrid.DecomposeCompose | examples/dialanine/script/umbrella_sampling.py:47-49 | every grid window has a linear index below M*M, and splitting that index gives the window back, so the split is onto the grid |
| WindowGrid.WindowAtDecompose | examples/dialanine/script/umbrella_sampling.py:47-49 | `//` and `%` by M agree with row-major counting: the first M indices are row 0, and each index M further on is the same column one row down |
| WindowGrid.WindowsIndex | examples/dialanine/script/umbrella_sampling.py:47-49 | the window visited at iteration `idx` is `(idx // M, idx % M)` and lies on the grid |
| WindowGrid.WindowsAreGrid | examples/dialanine/script/umbrella_sampling.py:47-49 | the loop visits exactly M*M windows, a window is visited iff it lies on the M x M grid, and no window is visited twice (a bijection with `range(M**2)`) |
| WindowGrid.RowMajorNext | examples/dialanine/script/umbrella_sampling.py:47-49 | the next window has the same psi index and the next phi index, or phi index 0 and the next psi index when phi was at M - 1 |
| WindowGrid.LinspaceHalfOpen | examples/dialanine/script/umbrella_sampling.py:43-44 | `linspace(start, stop, M, endpoint=False)` has M points, starts at `start`, stays in `[start, stop)`, and is spaced uniformly by `(stop - start) / M` |
| TrajectoryNaming.DecimalDigits | examples/dialanine/script/umbrella_sampling.py:70 | an index's rendering is a non-empty digit string with no leading zero unless the index is 0 |
| TrajectoryNaming.DecimalRoundTrip | examples/dialanine/script/umbrella_sampling.py:70 | reading the rendered digits back gives the index |
| TrajectoryNaming.DecimalInjective | examples/dialanine/script/umbrella_sampling.py:70 | distinct indices render to distinct strings |
| TrajectoryNaming.TrajectoryPathInjective | examples/dialanine/script/umbrella_sampling.py:70 | two windows share a trajectory path only if they are the same window |
| Engine.Context.constructor | examples/dialanine/script/umbrella_sampling.py:33 | a new context holds the system's default global parameters and records no calls |
| Engine.Context.SetParameter | examples/dialanine/script/umbrella_sampling.py:54-55 | `setParameter` overwrites exactly one global parameter, leaves the positions alone, and records the call |
| Engine.Context.SetPositions | examples/dialanine/script/umbrella_sampling.py:58 | `setPositions` installs exactly the given positions, leaves the parameters alone, and records the call |
| Engine.Context.GetPotentialEnergy | examples/dialanine/script/umbrella_sampling.py:59-60 | an energy read returns some value and records only the read |
| Engine.Context.Minimize | examples/dialanine/script/umbrella_sampling.py:62 | a minimizer call keeps the parameters and records its tolerance and iteration budget |
| Engine.Context.Step | examples/dialanine/script/umbrella_sampling.py:67 | an integrator run keeps the parameters and records its step count |
| Engine.Context.GetPositions | examples/dialanine/script/umbrella_sampling.py:74-75 | a position read returns the context's current positions |
| Engine.TrajectoryFile.Open | examples/dialanine/script/umbrella_sampling.py:70-71 | opening gives a new, empty, open file at the given path |
| Engine.TrajectoryFile.WriteModel | examples/dialanine/script/umbrella_sampling.py:76 | writing needs an open file and appends exactly the given frame |
| Engine.TrajectoryFile.Close | examples/dialanine/script/umbrella_sampling.py:77 | closing keeps the frames written so far and leaves the file closed |
| UmbrellaSampling.MinimizationShape | examples/dialanine/script/umbrella_sampling.py:59-64 | the minimization phase has 1 + 2 * 50 calls, all energy reads or minimizer calls with tolerance 1 and 20 iterations; it makes exactly 50 minimizer calls, takes no integrator steps and writes no frames |
| UmbrellaSampling.MinimizationOrder | examples/dialanine/script/umbrella_sampling.py:59-64 | the calls alternate: an energy read first, then each minimizer call followed by an energy read (reads at even positions, minimizer calls at odd ones) |
| UmbrellaSampling.ProductionShape | examples/dialanine/script/umbrella_sampling.py:70-77 | the production phase opens the file first and closes it last; call 1 + 3k is the k-th stride of 200 steps, call 2 + 3k a position read and call 3 + 3k a frame write to the window's own path; it writes exactly 500 frames, all to its own path, and takes 500 * 200 steps |
| UmbrellaSampling.FrameAfterStride | examples/dialanine/script/umbrella_sampling.py:72-76 | every frame write comes right after a stride of 200 steps and a read of the positions |
| UmbrellaSampling.WindowEntry | examples/dialanine/script/umbrella_sampling.py:54-77 | a window's calls start with the psi centre, the phi centre and the reference pose; the equilibration step and the file opening come right after minimization; closing is last |
| UmbrellaSampling.WindowOrder | examples/dialanine/script/umbrella_sampling.py:54-77 | within a window, parameters and positions are set only in the first three calls, minimizer calls come only before equilibration, steps and frames come only at equilibration or while the file is open, frames go only to the window's own file, and open and close happen once each |
| UmbrellaSampling.WindowTotals | examples/dialanine/script/umbrella_sampling.py:54-77 | every window makes 50 minimizer calls and 5000 + 500 * 200 integrator steps, and writes 500 frames to its own file and none elsewhere, whatever the window |
| UmbrellaSampling.ScheduleExtend | examples/dialanine/script/umbrella_sampling.py:47-77 | one more loop iteration appends exactly that window's calls, with its own centres |
| UmbrellaSampling.ScheduleLength | examples/dialanine/script/umbrella_sampling.py:47-77 | the loop makes the same number of calls in every window |
| UmbrellaSampling.SchedulePrefix | examples/dialanine/script/umbrella_sampling.py:47-77 | the calls of the first k iterations are a prefix of the calls of the whole loop |
| UmbrellaSampling.ScheduleSlice | examples/dialanine/script/umbrella_sampling.py:47-77 | the i-th window's calls, with centres `psi[psi_index]` and `phi[phi_index]`, follow exactly i windows' worth of calls within the loop's calls |
| UmbrellaSampling.ScheduleWrites | examples/dialanine/script/umbrella_sampling.py:54-62 | inside the loop only `psi` and `phi` are set, never `k_psi` or `k_phi`; every position reset uses the reference pose; every minimizer call has the same budget |
| UmbrellaSampling.ScheduleTotals | examples/dialanine/script/umbrella_sampling.py:47-77 | the loop's minimizer calls and integrator steps are the number of windows times the per-window amounts |
| UmbrellaSampling.ScheduleFrames | examples/dialanine/script/umbrella_sampling.py:70-77 | when no window repeats, each listed window's file gets exactly 500 frames and any other window's file gets none |
| UmbrellaSampling.LoopOnGrids | examples/dialanine/script/umbrella_sampling.py:43-49 | every visited index pair indexes both grids of M centres |
| UmbrellaSampling.LoopFrames | examples/dialanine/script/umbrella_sampling.py:47-77 | over the whole loop, the file of each grid window gets exactly 500 frames, and the file of any window off the grid gets none |
| UmbrellaSampling.LoopStep | examples/dialanine/script/umbrella_sampling.py:47-55 | iteration `idx` handles window `(idx // M, idx % M)` with centres `psi[idx // M]` and `phi[idx % M]`, appended after the earlier iterations' calls |
| UmbrellaSampling.ForceConstantsKept | examples/dialanine/script/umbrella_sampling.py:36-39 | when only the centres are written after the force constants are set, `k_psi` and `k_phi` still hold 100 |
| UmbrellaSampling.RunMinimization | examples/dialanine/script/umbrella_sampling.py:59-64 | the minimization loop makes exactly the calls of the minimization phase and changes no parameter |
| UmbrellaSampling.RunProduction | examples/dialanine/script/umbrella_sampling.py:70-77 | the production loop makes exactly the production calls; the new file at the window's path ends closed, holding 500 frames; no parameter changes |
| UmbrellaSampling.SampleWindow | examples/dialanine/script/umbrella_sampling.py:54-77 | one window makes exactly `WindowEvents`, sets exactly the two centres, and leaves its file closed with 500 frames |
| UmbrellaSampling.SplitIndex | examples/dialanine/script/umbrella_sampling.py:48-49 | `idx // M` and `idx % M` are both below M, and the pair is the loop's idx-th window |
| UmbrellaSampling.SampleNext | examples/dialanine/script/umbrella_sampling.py:47-77 | one pass of the loop extends the calls from the first `idx` windows' to the first `idx + 1` windows', writes only the centres, and leaves window idx's file closed with 500 frames |
| UmbrellaSampling.RunWindows | examples/dialanine/script/umbrella_sampling.py:47-77 | the whole loop makes exactly `Schedule` over the M*M windows in row-major order and writes no global parameter except the centres |
| UmbrellaSampling.RunUmbrellaSampling | examples/dialanine/script/umbrella_sampling.py:27-77 | the script sets `k_psi` and `k_phi` to 100 once, then makes exactly the loop's calls on the 25 x 25 grid over [-pi, pi); afterwards both force constants still hold 100 and all other non-centre parameters keep their defaults |

## Left out

- The OpenMM physics is not modelled: the Langevin integrator, the local energy minimizer, and the energy and position values. The minimizer and the integrator leave the positions unconstrained, and an energy read returns any value. So the model states nothing about which positions end up in a frame beyond "the positions read just before".
- Reading the serialized system (`system.xml`) and parsing the PSF and PDB files are not modelled. The context's default parameters and the reference pose (`pdb.positions`) are parameters of `RunUmbrellaSampling`.
- The platform, temperature, friction and step size are not modelled. They only configure the integrator and the DCD header.
- DCD encoding, file headers and the bytes on disk are not modelled. A trajectory file is its path, its list of frames and whether it is open.
- The progress output through `print` and `tqdm` is not modelled. It is observability only.
- Floating-point arithmetic is not modelled. `Linspace` is computed over exact reals, with `Pi` the shortest decimal that rounds to `math.pi`, so rounding of the grid centres is not modelled.
- UmbrellaSampling.RunWindows: does not return the per-window file objects. Like the script, each pass closes its file and keeps no handle to it. That each window's file ends closed with 500 frames is stated per pass by `SampleNext`. Which path receives how many frames over the whole loop is stated on the call journal by `LoopFrames`.
- There is no error handling in the script. It never checks the energies it reads, and a failure during production leaves the file open, because `close` is not in a `finally` block. The model follows the code, which has neither a check nor a guaranteed close.
- Exceptions raised inside the library calls and by `open` are not modelled: every engine and file call is taken to succeed. Examples are `setParameter` on a name the system does not define, and a DCD write of non-finite positions. So `Engine.Context.SetParameter` adds an unknown name instead of failing, and `RunUmbrellaSampling` describes a successful run for any `defaults`, even where the script would stop at line 38.
- Concurrency is not modelled: the script is strictly sequential.
- The module docstring speaks of the butane dihedral, but the script samples the psi and phi dihedrals of dialanine; the model follows the code.
