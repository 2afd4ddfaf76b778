# k-epsilon channel solver: inlet stencils, flux stencils and time-step controller

This project is a Dafny model of three parts of a finite-difference solver for turbulent
incompressible flow with a k-epsilon closure on a stretched Cartesian mesh:

- **The backward-facing-step inlet stencils** (`BFInputStencils.dfy`, module `BFInput`).
  Each stencil holds a step height. Three of the stencils (velocity, k, epsilon) snap the
  configured height onto a grid line when they are constructed: a linear search with an early
  exit over the y-cells of the first column. The flux stencil keeps the raw height. The pure
  profile functions give the inlet values for velocity, k and epsilon. They are zero below the
  step and a closed form above it. Each stencil's left face writes one boundary cell in place,
  and every other face is a no-op.
- **The momentum-flux stencils** (`FGHStencil.dfy`, module `FluxStencils`). The laminar
  stencil, the algebraic-turbulence stencil and the k-epsilon stencil each write one cell's
  F, G (and H) components in place.
  - The discretisation kernels are uninterpreted functions of the local velocity, viscosity
    and mesh windows.
  - In 3D the write is guarded by the cell's obstacle bitmask. A solid cell is skipped. Each
    component is written only when the neighbour in its direction is fluid.
- **The driver of the k-epsilon simulation** (`TurbulentSimulationKE.dfy`, module
  `Simulation`), as a class whose fields the operations update.
  - `setTimeStep` resets the maximum accumulators. It lets the iterators fill them. It forms
    the local candidate as the minimum of the diffusion limit and the guarded reciprocals of
    the maxima. It takes the minimum over all processes and scales the result by the safety
    factor tau.
  - `solveTimestep` and `initializeFlowField` are modelled as the sequence of phases they
    run, recorded in the driver's `trace`. The ordering guarantees are lemmas about that
    sequence.

`Mesh.dfy` (module `MeshGeometry`) holds the y-geometry of the mesh and the configuration
record. `Fields.dfy` (module `Fields`) holds the flow fields: one `array2`/`array3` per
quantity, updated in place.

Behaviour of the code that its comments or names do not suggest, which the model keeps:

- **The 3D inlet velocity is linear.** The active 3D law is `36 U / (Z² H²) · y`. The
  bi-parabolic factors are commented out (`Source/Stencils/BFInputStencils.cpp:20-21`). So
  the profile is zero on the step but not at the top wall (`VelocityProfile3DLinear`).
- **Snapping does not always land on a face.** A height at or below the centre of cell 0,
  or above the centre of cell sizeY - 1, matches no bracket and stays unsnapped.
  `SnapLandsOnFace` therefore requires the height to lie between those centres.
- **Not every axis enters the time step.** In 3D the x-velocity maximum plays no part in the
  local candidate (`CandidateIgnoresMaxUxIn3D`).
- **Only the velocity, k and epsilon inlets snap.** The flux inlet keeps the raw step height.
  When the mesh misses the raw height, it can therefore write a different profile value into
  the same boundary cell than the velocity inlet, as it does on the three-cell mesh of
  `FluxInletDisagreesWithVelocityInlet`.

## Model

| member | source | states |
|---|---|---|
| BFInput.RawStepHeight | Source/Stencils/BFInputStencils.cpp:140-144 | a non-positive ratio gives step height 0 (no step) |
| BFInput.RawStepInsideChannel | Source/Stencils/BFInputStencils.cpp:144 | a ratio in (0, 1) puts the raw step strictly between the bottom and the top of a channel of positive height |
| BFInput.FirstBracket | Source/Stencils/BFInputStencils.cpp:151-161 | the result is the first j in the scanned range whose bracket (centre of j, centre of j+1] holds the height; None means no j in the range matches |
| BFInput.SnappedStepHeight | Source/Stencils/BFInputStencils.cpp:151-161 | with no matching cell the height is unchanged; otherwise it is the upper face posY[j] + dy[j] of the first matching cell j |
| BFInput.SnapToFace | Source/Stencils/BFInputStencils.cpp:151-161 | the search loop with its early exit returns exactly the snapped height of the specification function |
| BFInput.SnappedWithinBracket | Source/Stencils/BFInputStencils.cpp:157-158 | with positive spacings the snapped height stays inside the bracket that matched |
| BFInput.BracketIsCentreInterval | Source/Stencils/BFInputStencils.cpp:157 | on a contiguous column the bracket test holds exactly when the height lies in (centre of j, centre of j+1] |
| BFInput.BracketExists | Source/Stencils/BFInputStencils.cpp:151-161 | between the first and last scanned centres of a contiguous, positively spaced column some bracket always matches |
| BFInput.SnapLandsOnFace | Source/Stencils/BFInputStencils.cpp:157-158 | a height between the first and the last cell centre is snapped onto the lower face of one of cells 1 .. n-1, never inside a cell |
| BFInput.SnapIsNearestFace | Source/Stencils/BFInputStencils.cpp:157-158 | no lower face of the scanned cells is closer to the raw height than the snapped face |
| BFInput.SnapIdempotent | Source/Stencils/BFInputStencils.cpp:151-161 | snapping an already snapped height leaves it unchanged |
| BFInput.ComputeVelocity2D | Source/Stencils/BFInputStencils.cpp:27-43 | the 2D inlet velocity is 0 for a cell whose centre is below the step |
| BFInput.VelocityProfile2DShape | Source/Stencils/BFInputStencils.cpp:31-39 | above the step the 2D profile is 0 at y = 0 and y = H and 1.5 U at y = H/2, and lies in [0, 1.5 U] inside the opening for U >= 0 |
| BFInput.ComputeVelocity3D | Source/Stencils/BFInputStencils.cpp:5-25 | the 3D inlet velocity is 0 for a cell whose centre is below the step |
| BFInput.VelocityProfile3DLinear | Source/Stencils/BFInputStencils.cpp:11-20 | above the step the active 3D law is 0 at the step, proportional to the height above it, and not 0 at the top wall when U != 0 |
| BFInput.InletK | Source/Stencils/BFInputStencils.cpp:83 | the k estimate 0.003 U² is never negative |
| BFInput.ComputeK2D | Source/Stencils/BFInputStencils.cpp:70-88 | 2D inlet k is 0 below the step and the estimate 0.003 U² above it, hence never negative |
| BFInput.ComputeK3D | Source/Stencils/BFInputStencils.cpp:45-68 | 3D inlet k is 0 below the step; above it, its mean with the first interior cell's k is the 2D value |
| BFInput.EpsilonEstimate | Source/Stencils/BFInputStencils.cpp:131-132 | the dissipation estimate cmu (0.003 U²)^1.5 / (0.03 H) is positive for positive cmu, H and power |
| BFInput.ComputeEpsilon2D | Source/Stencils/BFInputStencils.cpp:114-138 | 2D inlet epsilon is 0 below the step and positive above it when cmu, the opening and the power are positive |
| BFInput.ComputeEpsilon3D | Source/Stencils/BFInputStencils.cpp:90-112 | 3D inlet epsilon is 0 below the step; above it, its mean with the first interior cell's epsilon is the 2D value |
| BFInput.BFInputVelocityStencil.constructor | Source/Stencils/BFInputStencils.cpp:140-178 | the step height is the raw height, snapped for a 2D or 3D geometry |
| BFInput.BFInputVelocityStencil.ApplyWall2D | Source/Stencils/BFInputStencils.cpp:180-194 | left face: u of cell (i, j) becomes the profile and v becomes -v of cell (i+1, j); no other cell changes; every other face changes nothing |
| BFInput.BFInputVelocityStencil.ApplyWall3D | Source/Stencils/BFInputStencils.cpp:196-216 | left face: u from the profile, v and w reflected from cell (i+1, j, k); no other cell changes; every other face changes nothing |
| BFInput.BFInputFGHStencil.constructor | Source/Stencils/BFInputStencils.cpp:218-220 | the step height is the raw height, never snapped |
| BFInput.BFInputFGHStencil.ApplyWall2D | Source/Stencils/BFInputStencils.cpp:222-234 | left face: only F of cell (i, j) becomes the profile, G keeps its value; other faces change nothing |
| BFInput.BFInputFGHStencil.ApplyWall3D | Source/Stencils/BFInputStencils.cpp:236-266 | left face: only F of cell (i, j, k) becomes the profile; other faces change nothing |
| BFInput.BFInputKStencil.constructor | Source/Stencils/BFInputStencils.cpp:268-306 | the step height is the raw height, snapped for a 2D or 3D geometry |
| BFInput.BFInputKStencil.ApplyWall2D | Source/Stencils/BFInputStencils.cpp:308-326 | left face: k of cell (i, j) becomes the 2D inlet k, no other cell changes; other faces change nothing |
| BFInput.BFInputKStencil.ApplyWall3D | Source/Stencils/BFInputStencils.cpp:312-357 | left face: k of cell (i, j, k) becomes the 3D inlet k computed from k of cell (i+1, j, k); other faces change nothing |
| BFInput.BFInputEpsilonStencil.constructor | Source/Stencils/BFInputStencils.cpp:359-397 | the step height is the raw height, snapped for a 2D or 3D geometry |
| BFInput.BFInputEpsilonStencil.ApplyWall2D | Source/Stencils/BFInputStencils.cpp:399-417 | left face: epsilon of cell (i, j) becomes the 2D inlet epsilon, no other cell changes; other faces change nothing |
| BFInput.BFInputEpsilonStencil.ApplyWall3D | Source/Stencils/BFInputStencils.cpp:403-448 | left face: epsilon of cell (i, j, k) becomes the 3D inlet epsilon computed from epsilon of cell (i+1, j, k); other faces change nothing |
| BFInput.FluxInletDisagreesWithVelocityInlet | Source/Stencils/BFInputStencils.cpp:218-223 | on a concrete three-cell mesh the flux inlet (raw height 1.2) and the velocity inlet (snapped to 1.0) write different profile values into the same cell |
| FluxStencils.GuardedFlux | Source/Stencils/FGHStencil.cpp:27-43 | a solid cell keeps its vector; a component changes only if the cell is fluid and its right/top/back neighbour is fluid, and then it holds the kernel value; every such component does |
| FluxStencils.GuardedFluxIdempotent | Source/Stencils/FGHStencil.cpp:34-42 | a second application with the same flags and kernel values changes nothing more |
| FluxStencils.GuardedComponentsKept | Source/Stencils/FGHStencil.cpp:30-43 | over any number of applications a solid cell keeps its vector and a component towards a solid neighbour keeps its value; a fluid x component holds the latest F |
| FluxStencils.FGHStencil.constructor | Source/Stencils/FGHStencil.cpp:9-10 | the stencil holds the mesh and the five kernels |
| FluxStencils.FGHStencil.Apply2D | Source/Stencils/FGHStencil.cpp:12-22 | F and G of (i, j) are overwritten with the kernels of the local windows; no other cell and no velocity changes |
| FluxStencils.FGHStencil.Apply3D | Source/Stencils/FGHStencil.cpp:24-44 | a solid cell's FGH is untouched; a fluid cell's FGH becomes the guarded flux of the kernel values; nothing else changes |
| FluxStencils.TurbulentFGHStencil.constructor | Source/Stencils/FGHStencil.cpp:46-47 | the stencil holds the mesh and the five turbulent kernels |
| FluxStencils.TurbulentFGHStencil.Apply2D | Source/Stencils/FGHStencil.cpp:49-65 | F and G of (i, j) come from the velocity, viscosity and mesh windows; nothing else changes |
| FluxStencils.TurbulentFGHStencil.Apply3D | Source/Stencils/FGHStencil.cpp:67-93 | the same obstacle guards as the laminar 3D stencil, with the kernels given the viscosity buffer as it stands |
| FluxStencils.TurbulentFGHStencilKE.constructor | Source/Stencils/FGHStencil.cpp:96-97 | the stencil holds the mesh and the two turbulent kernels |
| FluxStencils.TurbulentFGHStencilKE.Apply2D | Source/Stencils/FGHStencil.cpp:99-115 | F and G of (i, j) come from the velocity, viscosity and mesh windows; nothing else changes |
| Simulation.CandidateIsMinimum | Source/TurbulentSimulationKE.cpp:113-125 | the local candidate is one of the five bounds and at most each of them |
| Simulation.CandidateIgnoresMaxUxIn3D | Source/TurbulentSimulationKE.cpp:107-118 | in 3D two scans that differ only in the u maximum give the same candidate |
| Simulation.CandidateMonotone | Source/TurbulentSimulationKE.cpp:113-125 | raising any of the (non-negative) maxima never raises the candidate |
| Simulation.CandidatePositive | Source/TurbulentSimulationKE.cpp:113-125 | a positive diffusion limit gives a positive candidate |
| Simulation.ScannedMaxU | Source/TurbulentSimulationKE.cpp:92-97 | the velocity maximum after the reset and the two iterations is non-negative in every component |
| Simulation.AllReduceMin | Source/TurbulentSimulationKE.cpp:131-132 | the reduced value is one of the candidates and at most each of them |
| Simulation.AllReduceMinOrderFree | Source/TurbulentSimulationKE.cpp:132 | the reduced value depends only on the multiset of candidates, not their order |
| Simulation.GlobalMinBelowAll | Source/TurbulentSimulationKE.cpp:131-134 | the global minimum is at most the local candidate and at most every other process's candidate |
| Simulation.TimeStepWithinCandidate | Source/TurbulentSimulationKE.cpp:131-135 | for tau >= 0 the time step is at most tau times the local candidate |
| Simulation.TimeStepAgreement | Source/TurbulentSimulationKE.cpp:131-135 | processes holding the same multiset of candidates compute the same time step |
| Simulation.SingleProcessTimeStep | Source/TurbulentSimulationKE.cpp:131-135 | with one process the reduction is the identity and the time step is tau times the local candidate |
| Simulation.SingleProcessTimeStepPositive | Source/TurbulentSimulationKE.cpp:131-135 | with one process, a positive safety factor and a positive diffusion limit the time step is positive |
| Simulation.AllReduceMinMonotone | Source/TurbulentSimulationKE.cpp:131-132 | a smaller local candidate never gives a larger global minimum, whatever the other processes contribute |
| Simulation.ScanCandidateMonotone | Source/TurbulentSimulationKE.cpp:104-125 | a scan with larger maxima and the same diffusion limit never gives a larger local candidate |
| Simulation.ScaledMinMonotone | Source/TurbulentSimulationKE.cpp:131-135 | for tau >= 0 a smaller local candidate never gives a longer scaled global minimum |
| Simulation.TimeStepMonotone | Source/TurbulentSimulationKE.cpp:104-135 | for tau >= 0, a scan with larger velocity, k and epsilon maxima (same diffusion limit) never gives a longer global time step |
| Simulation.VelocityResetBeforeScans | Source/TurbulentSimulationKE.cpp:92-97 | the velocity maximum is reset before the field and the boundary iterations that fill it |
| Simulation.ScalarResetsBeforeScans | Source/TurbulentSimulationKE.cpp:92-105 | the k and epsilon maxima are reset before their iterations |
| Simulation.DtResetRightBeforeScan | Source/TurbulentSimulationKE.cpp:99-100 | the time-step stencil is reset immediately before its iteration |
| Simulation.LimitsBeforeReduction | Source/TurbulentSimulationKE.cpp:96-132 | the velocity and diffusion limits are found before the global reduction |
| Simulation.ScalarScansBeforeReduction | Source/TurbulentSimulationKE.cpp:104-132 | the k and epsilon maxima are found before the global reduction, which is the last phase of setTimeStep |
| Simulation.TimeStepBeforeBoundaries | Source/TurbulentSimulationKE.cpp:49-58 | a time step opens with the viscosity exchange, then all of setTimeStep, which precedes the first boundary iteration |
| Simulation.BoundariesBeforeInterior | Source/TurbulentSimulationKE.cpp:54-81 | every boundary iteration of a time step comes before every interior phase |
| Simulation.SnapshotBeforeUpdate | Source/TurbulentSimulationKE.cpp:60-66 | the old k is saved immediately before the k iteration and the old epsilon immediately before the epsilon iteration |
| Simulation.KBeforeEpsilonSnapshot | Source/TurbulentSimulationKE.cpp:61-65 | k is advanced before the old epsilon is saved |
| Simulation.ViscosityBeforeFlux | Source/TurbulentSimulationKE.cpp:66-72 | the viscosity is rebuilt after the epsilon iteration and before the flux iteration |
| Simulation.FluxBeforeSolve | Source/TurbulentSimulationKE.cpp:72-76 | the flux precedes the right-hand side, which precedes the pressure solve |
| Simulation.SolveBeforeVelocity | Source/TurbulentSimulationKE.cpp:76-83 | the pressure is solved and exchanged before the velocity update, and the velocity exchange is the last phase |
| Simulation.InitializeOrder | Source/TurbulentSimulationKE.cpp:28-45 | initialisation starts with the base initialisation and the wall distance, ends with the one viscosity update, and initialises k and epsilon exactly for the channel scenario |
| Simulation.ChannelInitializeOrder | Source/TurbulentSimulationKE.cpp:31-42 | in the channel scenario k is initialised, then its boundary, then epsilon, then its boundary |
| Simulation.TurbulentSimulationKE.SetTimeStep | Source/TurbulentSimulationKE.cpp:87-136 | the maxima are those of the latest scan only, the time step is tau times the global minimum of the candidates, and the phases run in setTimeStep's order |
| Simulation.TurbulentSimulationKE.SolveTimestep | Source/TurbulentSimulationKE.cpp:47-85 | the time step and maxima are those setTimeStep computes, and the phases run in solveTimestep's order |
| Simulation.TurbulentSimulationKE.InitializeFlowField | Source/TurbulentSimulationKE.cpp:28-45 | the phases run in initializeFlowField's order; the time step, the diffusion limit and the maxima are unchanged |

## Left out

- The discretisation kernels and the window loaders are not part of this model. They live in StencilFunctions.hpp. The kernels are uninterpreted function-typed constants of the stencils. The windows are an assumed layout of the 3 x 3 (x 3) neighbourhood.
- `pow(x, 1.5)` is an uninterpreted function `pow15`, given to the epsilon stencil.
- Floating point is not modelled: every number is a `real`, with no rounding, overflow or NaN.
  - `std::numeric_limits<double>::min()` is the constant `DoubleMin`. The driver holds it as `tiny`, and its methods require `tiny > 0.0`.
  - The lemmas hold for every positive shift.
- Divisions by a zero opening (lengthY equal to the step height) or by a zero depth lengthZ are excluded by preconditions. The code would divide by zero there.
- MPI, the pressure solver and the halo exchanges are not modelled.
  - `MPI_Allreduce` is a minimum over the local candidate followed by the other processes' candidates. The other candidates are a parameter.
  - The solve and the exchanges are only recorded as phases of the trace.
- The iterators, the boundary factory, the maximum stencils and the time-step stencil are not part of this model.
  - What the iterators observe comes in as a `Scan`.
  - A maximum stencil is a reset to 0 followed by a component-wise maximum with what its iteration finds.
  - The iterations of `solveTimestep` and `initializeFlowField` are phases, not field updates.
- `hUpdate`, `nuTUpdate`, `plotVTK` and the `TurbulentSimulationKE` constructor are not modelled beyond trace events. They are wiring, output or delegation to iterators. `Source/Stencils/hStencil.hpp` declares no behaviour.
- FluxStencils.TurbulentFGHStencil.Apply3D: the viscosity buffer the 3D turbulent kernels read is a parameter. The model does not track what an earlier call left in it.
- The mesh is a tensor product. The y-position and spacing depend only on j, so the column (i = 0, k = 0) the constructors scan is the same as the column a profile reads.
- The obstacle-flag bit values (1, 2, 4, 8, 16, 32, 64) are assumed, because Definitions.hpp is not part of this model. Only the 3D flow field holds flags.
- One class per dimension stands for FlowField, TurbulentFlowField and TurbulentFlowFieldKE. Every kind of field carries velocity, FGH, k, epsilon and viscosity arrays in the model.
- The snapping constructors read the first two spacings before their loop. Those reads have no effect, and the model omits them.
- Commented-out alternative formulas in the source are not modelled.

