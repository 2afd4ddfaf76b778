/** The driver of the k-epsilon simulation: the time-step controller and the order in which
    one time step, and the initialisation, run their phases.

    The iterators, the pressure solver and the inter-process communication are not part
    of this model. Each phase the driver runs is recorded, in order, as an event of the
    driver's `trace`; the values the time-step controller's iterators observe on the field
    come in as a `Scan`, and the other processes' candidates of the global minimum as a
    sequence. */
module Simulation {
  import opened MeshGeometry
  import opened Fields

  /** The smallest positive normal double, added to every maximum before it is inverted. */
  const DoubleMin: real := 2.2250738585072014e-308

  datatype Phase =
    | BaseInitialize        // the base simulation's initialisation
    | HUpdate               // wall distance iteration
    | KInit | WallKInit     // channel initialisation of k and its boundary
    | EpsilonInit | WallEpsilonInit
    | CommunicateViscosity
    | ResetMaxU | ResetMaxK | ResetMaxEps
    | MaxUFieldIterate | MaxUBoundaryIterate
    | ResetDt | DtIterate
    | MaxKIterate | MaxEpsIterate
    | ReduceMin             // global minimum over all processes
    | WallVelocity | WallFGH | WallK | WallEpsilon
    | UpdateKOld | KIterate
    | UpdateEpsOld | EpsilonIterate
    | NuTUpdate
    | FGHIterate | RHSIterate | Solve
    | CommunicatePressure
    | VelocityIterate | ObstacleIterate
    | CommunicateVelocities

  /** What the time-step controller's iterators find on the field: the largest velocity
      components over the interior and over the boundary, the largest k and epsilon, and the
      limit of the diffusion time-step stencil. */
  datatype Scan = Scan(fieldMaxU: Vec3, boundaryMaxU: Vec3, maxK: real, maxEps: real, dtLimit: real)

  function Min(a: real, b: real): real {
    if a <= b then a else b
  }

  function Max(a: real, b: real): real {
    if a >= b then a else b
  }

  function MaxVec(a: Vec3, b: Vec3): Vec3 {
    Vec3(Max(a.x, b.x), Max(a.y, b.y), Max(a.z, b.z))
  }

  predicate NonNegative(v: Vec3) {
    v.x >= 0.0 && v.y >= 0.0 && v.z >= 0.0
  }

  // ---------------------------------------------------------------------------------------
  // The local time-step candidate
  // ---------------------------------------------------------------------------------------

  /** The bounds the candidate is the minimum of: the diffusion limit, the inverse of the
      leading velocity maximum (w in 3D, u in 2D), of the v maximum, and of twice the k and
      epsilon maxima, each maximum shifted by `tiny` so that it can be inverted. */
  function Bounds(dim: int, dtLimit: real, maxU: Vec3, maxK: real, maxEps: real, tiny: real): seq<real>
    requires tiny > 0.0 && NonNegative(maxU) && maxK >= 0.0 && maxEps >= 0.0
  {
    [dtLimit,
     1.0 / ((if dim == 3 then maxU.z else maxU.x) + tiny),
     1.0 / (maxU.y + tiny),
     1.0 / (2.0 * maxK + tiny),
     1.0 / (2.0 * maxEps + tiny)]
  }

  /** The local candidate as the controller nests it. */
  function LocalCandidate(dim: int, dtLimit: real, maxU: Vec3, maxK: real, maxEps: real, tiny: real): real
    requires tiny > 0.0 && NonNegative(maxU) && maxK >= 0.0 && maxEps >= 0.0
  {
    var lead := 1.0 / ((if dim == 3 then maxU.z else maxU.x) + tiny);
    Min(dtLimit,
        Min(lead,
            Min(1.0 / (maxU.y + tiny),
                Min(1.0 / (2.0 * maxK + tiny), 1.0 / (2.0 * maxEps + tiny)))))
  }

  /** The candidate is the smallest of its bounds. */
  lemma CandidateIsMinimum(dim: int, dtLimit: real, maxU: Vec3, maxK: real, maxEps: real, tiny: real)
    requires tiny > 0.0 && NonNegative(maxU) && maxK >= 0.0 && maxEps >= 0.0
    ensures var r := LocalCandidate(dim, dtLimit, maxU, maxK, maxEps, tiny);
      var b := Bounds(dim, dtLimit, maxU, maxK, maxEps, tiny);
      r in b && forall n :: 0 <= n < |b| ==> r <= b[n]
  {}

  /** In 3D the u maximum plays no part: two scans that differ only there give the same
      candidate. */
  lemma CandidateIgnoresMaxUxIn3D(dtLimit: real, u1: Vec3, u2: Vec3, maxK: real, maxEps: real, tiny: real)
    requires tiny > 0.0 && NonNegative(u1) && NonNegative(u2) && maxK >= 0.0 && maxEps >= 0.0
    requires u1.y == u2.y && u1.z == u2.z
    ensures LocalCandidate(3, dtLimit, u1, maxK, maxEps, tiny) == LocalCandidate(3, dtLimit, u2, maxK, maxEps, tiny)
  {
    assert Bounds(3, dtLimit, u1, maxK, maxEps, tiny) == Bounds(3, dtLimit, u2, maxK, maxEps, tiny);
  }

  /** A larger maximum allows no longer a step: raising any of the maxima never raises the
      candidate. */
  lemma CandidateMonotone(dim: int, dtLimit: real, u1: Vec3, u2: Vec3, k1: real, k2: real, e1: real, e2: real, tiny: real)
    requires tiny > 0.0 && NonNegative(u1) && k1 >= 0.0 && e1 >= 0.0
    requires u1.x <= u2.x && u1.y <= u2.y && u1.z <= u2.z && k1 <= k2 && e1 <= e2
    ensures LocalCandidate(dim, dtLimit, u2, k2, e2, tiny) <= LocalCandidate(dim, dtLimit, u1, k1, e1, tiny)
  {
    var b1 := Bounds(dim, dtLimit, u1, k1, e1, tiny);
    var b2 := Bounds(dim, dtLimit, u2, k2, e2, tiny);
    RecipAntitone((if dim == 3 then u1.z else u1.x) + tiny, (if dim == 3 then u2.z else u2.x) + tiny);
    RecipAntitone(u1.y + tiny, u2.y + tiny);
    RecipAntitone(2.0 * k1 + tiny, 2.0 * k2 + tiny);
    RecipAntitone(2.0 * e1 + tiny, 2.0 * e2 + tiny);
    var c2 := LocalCandidate(dim, dtLimit, u2, k2, e2, tiny);
    forall n | 0 <= n < 5
      ensures c2 <= b1[n]
    {
      assert b2[n] <= b1[n];
    }
  }

  lemma RecipAntitone(a: real, b: real)
    requires 0.0 < a <= b
    ensures 1.0 / b <= 1.0 / a
  {
    assert 1.0 / a - 1.0 / b == (b - a) / (a * b);
    MulPositive(a, b);
  }

  /** A positive diffusion limit gives a positive candidate. */
  lemma CandidatePositive(dim: int, dtLimit: real, maxU: Vec3, maxK: real, maxEps: real, tiny: real)
    requires tiny > 0.0 && NonNegative(maxU) && maxK >= 0.0 && maxEps >= 0.0 && dtLimit > 0.0
    ensures LocalCandidate(dim, dtLimit, maxU, maxK, maxEps, tiny) > 0.0
  {
    RecipPositive((if dim == 3 then maxU.z else maxU.x) + tiny);
    RecipPositive(maxU.y + tiny);
    RecipPositive(2.0 * maxK + tiny);
    RecipPositive(2.0 * maxEps + tiny);
  }

  lemma RecipPositive(x: real)
    requires x > 0.0
    ensures 1.0 / x > 0.0
  {}

  /** The velocity maximum after a reset and the field and boundary iterations. */
  function ScannedMaxU(scan: Scan): (u: Vec3)
    ensures NonNegative(u)
  {
    MaxVec(MaxVec(Vec3(0.0, 0.0, 0.0), scan.fieldMaxU), scan.boundaryMaxU)
  }

  // ---------------------------------------------------------------------------------------
  // The global minimum
  // ---------------------------------------------------------------------------------------

  /** The minimum over the candidates of all processes, as the all-reduce delivers it to
      each of them. */
  function AllReduceMin(candidates: seq<real>): (r: real)
    requires |candidates| > 0
    ensures r in candidates
    ensures forall c :: c in candidates ==> r <= c
  {
    if |candidates| == 1 then candidates[0]
    else
      var rest := AllReduceMin(candidates[1..]);
      assert forall c :: c in candidates ==> c == candidates[0] || c in candidates[1..];
      Min(candidates[0], rest)
  }

  lemma SameMembers(a: seq<real>, b: seq<real>, x: real)
    requires multiset(a) == multiset(b) && x in a
    ensures x in b
  {
    assert x in multiset(a);
  }

  /** Every process gets the same minimum whatever order the candidates arrive in. */
  lemma AllReduceMinOrderFree(a: seq<real>, b: seq<real>)
    requires |a| > 0 && |b| > 0 && multiset(a) == multiset(b)
    ensures AllReduceMin(a) == AllReduceMin(b)
  {
    SameMembers(a, b, AllReduceMin(a));
    SameMembers(b, a, AllReduceMin(b));
  }

  // ---------------------------------------------------------------------------------------
  // The time step
  // ---------------------------------------------------------------------------------------

  /** The time step scaled by the safety factor tau. */
  function Scale(dt: real, tau: real): real {
    dt * tau
  }

  /** The time step setTimeStep sets from what the iterators find and the other processes'
      candidates: the all-reduced minimum, scaled by tau. */
  function NextTimeStep(dim: int, tau: real, scan: Scan, others: seq<real>, tiny: real): real
    requires tiny > 0.0
  {
    Scale(AllReduceMin([ScanCandidate(dim, scan, tiny)] + others), tau)
  }

  /** The local candidate of a scan. */
  function ScanCandidate(dim: int, scan: Scan, tiny: real): real
    requires tiny > 0.0
  {
    LocalCandidate(dim, scan.dtLimit, ScannedMaxU(scan), Max(0.0, scan.maxK), Max(0.0, scan.maxEps), tiny)
  }

  /** The all-reduced minimum is at most every process's candidate. */
  lemma GlobalMinBelowAll(local: real, others: seq<real>)
    ensures AllReduceMin([local] + others) <= local
    ensures forall n :: 0 <= n < |others| ==> AllReduceMin([local] + others) <= others[n]
  {
    var all := [local] + others;
    assert all[0] in all;
    forall n | 0 <= n < |others|
      ensures AllReduceMin(all) <= others[n]
    {
      assert all[n + 1] == others[n];
      assert others[n] in all;
    }
  }

  /** With a non-negative safety factor, no process steps further than its own candidate
      allows. */
  lemma TimeStepWithinCandidate(dim: int, tau: real, scan: Scan, others: seq<real>, tiny: real)
    requires tiny > 0.0 && tau >= 0.0
    ensures NextTimeStep(dim, tau, scan, others, tiny) <= Scale(ScanCandidate(dim, scan, tiny), tau)
  {
    var c := ScanCandidate(dim, scan, tiny);
    GlobalMinBelowAll(c, others);
    MulRightMono(AllReduceMin([c] + others), c, tau);
  }

  /** All processes agree on the time step: it depends only on the multiset of candidates. */
  lemma TimeStepAgreement(dim: int, tau: real, scan1: Scan, others1: seq<real>, scan2: Scan, others2: seq<real>, tiny: real)
    requires tiny > 0.0
    requires multiset([ScanCandidate(dim, scan1, tiny)] + others1) == multiset([ScanCandidate(dim, scan2, tiny)] + others2)
    ensures NextTimeStep(dim, tau, scan1, others1, tiny) == NextTimeStep(dim, tau, scan2, others2, tiny)
  {
    AllReduceMinOrderFree([ScanCandidate(dim, scan1, tiny)] + others1, [ScanCandidate(dim, scan2, tiny)] + others2);
  }

  /** With one process the reduction is the identity: the time step is tau times the local
      candidate. */
  lemma SingleProcessTimeStep(dim: int, tau: real, scan: Scan, tiny: real)
    requires tiny > 0.0
    ensures NextTimeStep(dim, tau, scan, [], tiny) == Scale(ScanCandidate(dim, scan, tiny), tau)
  {
    var c := ScanCandidate(dim, scan, tiny);
    assert [c] + [] == [c];
  }

  /** With one process, a positive diffusion limit and a positive safety factor give a
      positive time step. */
  lemma SingleProcessTimeStepPositive(dim: int, tau: real, scan: Scan, tiny: real)
    requires tau > 0.0 && scan.dtLimit > 0.0 && tiny > 0.0
    ensures NextTimeStep(dim, tau, scan, [], tiny) > 0.0
  {
    var c := ScanCandidate(dim, scan, tiny);
    SingleProcessTimeStep(dim, tau, scan, tiny);
    CandidatePositive(dim, scan.dtLimit, ScannedMaxU(scan), Max(0.0, scan.maxK), Max(0.0, scan.maxEps), tiny);
    MulPositive(c, tau);
  }

  /** A smaller local candidate never gives a larger global minimum. */
  lemma AllReduceMinMonotone(c1: real, c2: real, others: seq<real>)
    requires c2 <= c1
    ensures AllReduceMin([c2] + others) <= AllReduceMin([c1] + others)
  {
    var m := AllReduceMin([c1] + others);
    var all := [c1] + others;
    assert m in all;
    if m != c1 {
      var n :| 0 <= n < |all| && all[n] == m;
      assert others[n - 1] == m;
      GlobalMinBelowAll(c2, others);
    } else {
      GlobalMinBelowAll(c2, others);
    }
  }

  /** Larger maxima in a scan (with the same diffusion limit) never give a larger candidate. */
  lemma ScanCandidateMonotone(dim: int, scan1: Scan, scan2: Scan, tiny: real)
    requires tiny > 0.0 && scan1.dtLimit == scan2.dtLimit
    requires ScannedMaxU(scan1).x <= ScannedMaxU(scan2).x && ScannedMaxU(scan1).y <= ScannedMaxU(scan2).y
    requires ScannedMaxU(scan1).z <= ScannedMaxU(scan2).z
    requires scan1.maxK <= scan2.maxK && scan1.maxEps <= scan2.maxEps
    ensures ScanCandidate(dim, scan2, tiny) <= ScanCandidate(dim, scan1, tiny)
  {
    CandidateMonotone(dim, scan1.dtLimit, ScannedMaxU(scan1), ScannedMaxU(scan2),
                      Max(0.0, scan1.maxK), Max(0.0, scan2.maxK), Max(0.0, scan1.maxEps), Max(0.0, scan2.maxEps), tiny);
  }

  /** A smaller local candidate never gives a longer scaled global minimum (tau >= 0). */
  lemma ScaledMinMonotone(c1: real, c2: real, others: seq<real>, tau: real)
    requires c2 <= c1 && tau >= 0.0
    ensures Scale(AllReduceMin([c2] + others), tau) <= Scale(AllReduceMin([c1] + others), tau)
  {
    AllReduceMinMonotone(c1, c2, others);
    MulRightMono(AllReduceMin([c2] + others), AllReduceMin([c1] + others), tau);
  }

  /** Larger maxima in one process's scan never give a longer global time step (tau >= 0). */
  lemma TimeStepMonotone(dim: int, tau: real, scan1: Scan, scan2: Scan, others: seq<real>, tiny: real)
    requires tiny > 0.0 && tau >= 0.0 && scan1.dtLimit == scan2.dtLimit
    requires ScannedMaxU(scan1).x <= ScannedMaxU(scan2).x && ScannedMaxU(scan1).y <= ScannedMaxU(scan2).y
    requires ScannedMaxU(scan1).z <= ScannedMaxU(scan2).z
    requires scan1.maxK <= scan2.maxK && scan1.maxEps <= scan2.maxEps
    ensures NextTimeStep(dim, tau, scan2, others, tiny) <= NextTimeStep(dim, tau, scan1, others, tiny)
  {
    ScanCandidateMonotone(dim, scan1, scan2, tiny);
    ScaledMinMonotone(ScanCandidate(dim, scan1, tiny), ScanCandidate(dim, scan2, tiny), others, tau);
  }

  lemma MulRightMono(a: real, b: real, tau: real)
    requires a <= b && tau >= 0.0
    ensures a * tau <= b * tau
  {
    assert b * tau - a * tau == (b - a) * tau;
  }

  // ---------------------------------------------------------------------------------------
  // Phase order
  // ---------------------------------------------------------------------------------------

  /** p occurs in t at index n and nowhere else. */
  ghost predicate OnlyAt(t: seq<Phase>, p: Phase, n: int) {
    0 <= n < |t| && t[n] == p && forall i :: 0 <= i < |t| && t[i] == p ==> i == n
  }

  /** a and b each occur in t exactly once, a first. */
  ghost predicate Precedes(t: seq<Phase>, a: Phase, b: Phase) {
    exists i, j :: i < j && OnlyAt(t, a, i) && OnlyAt(t, b, j)
  }

  /** b occurs in t exactly once, right after a. */
  ghost predicate RightAfter(t: seq<Phase>, a: Phase, b: Phase) {
    exists n :: 0 < n && OnlyAt(t, b, n) && t[n - 1] == a
  }

  /** The position of a phase within a time step (-1 for the initialisation phases). */
  function StepRank(p: Phase): int {
    match p
    case CommunicateViscosity => 0
    case ResetMaxU => 1
    case ResetMaxK => 2
    case ResetMaxEps => 3
    case MaxUFieldIterate => 4
    case MaxUBoundaryIterate => 5
    case ResetDt => 6
    case DtIterate => 7
    case MaxKIterate => 8
    case MaxEpsIterate => 9
    case ReduceMin => 10
    case WallVelocity => 11
    case WallFGH => 12
    case WallK => 13
    case WallEpsilon => 14
    case UpdateKOld => 15
    case KIterate => 16
    case UpdateEpsOld => 17
    case EpsilonIterate => 18
    case NuTUpdate => 19
    case FGHIterate => 20
    case RHSIterate => 21
    case Solve => 22
    case CommunicatePressure => 23
    case VelocityIterate => 24
    case ObstacleIterate => 25
    case CommunicateVelocities => 26
    case _ => -1
  }

  /** The phases of setTimeStep, in order. */
  function SetTimeStepPhases(): seq<Phase> {
    [ResetMaxU, ResetMaxK, ResetMaxEps, MaxUFieldIterate, MaxUBoundaryIterate,
     ResetDt, DtIterate, MaxKIterate, MaxEpsIterate, ReduceMin]
  }

  /** The phases of one time step, in order. */
  function SolveTimestepPhases(): seq<Phase> {
    [CommunicateViscosity] + SetTimeStepPhases() +
    [WallVelocity, WallFGH, WallK, WallEpsilon,
     UpdateKOld, KIterate,
     UpdateEpsOld, EpsilonIterate,
     NuTUpdate,
     FGHIterate, RHSIterate, Solve, CommunicatePressure,
     VelocityIterate, ObstacleIterate,
     CommunicateVelocities]
  }

  /** The phases of the initialisation: the k and epsilon initial fields and their
      boundaries only for the channel scenario. */
  function InitializePhases(scenario: string): seq<Phase> {
    [BaseInitialize, HUpdate] +
    (if scenario == "channel" then [KInit, WallKInit, EpsilonInit, WallEpsilonInit] else []) +
    [NuTUpdate]
  }

  /** Every phase of a time step sits at its rank, so none occurs twice. */
  lemma SolveTimestepRanked()
    ensures var t := SolveTimestepPhases();
      |t| == 27 && forall i :: 0 <= i < |t| ==> StepRank(t[i]) == i
  {
    var t := SolveTimestepPhases();
    var s := SetTimeStepPhases();
    SetTimeStepRanked();
    forall i | 1 <= i < 11
      ensures StepRank(t[i]) == i
    {
      assert t[i] == s[i - 1];
    }
  }

  /** Every phase of setTimeStep sits one before its rank in a time step. */
  lemma SetTimeStepRanked()
    ensures var t := SetTimeStepPhases();
      |t| == 10 && forall i :: 0 <= i < |t| ==> StepRank(t[i]) == i + 1
  {}

  /** Recording the phases of setTimeStep one at a time records SetTimeStepPhases(). */
  lemma SetTimeStepRecorded(o: seq<Phase>)
    ensures o + [ResetMaxU] + [ResetMaxK] + [ResetMaxEps] + [MaxUFieldIterate] + [MaxUBoundaryIterate] +
      [ResetDt] + [DtIterate] + [MaxKIterate] + [MaxEpsIterate] + [ReduceMin] == o + SetTimeStepPhases()
  {}

  /** Recording the phases of solveTimestep one at a time records SolveTimestepPhases(). */
  lemma SolveTimestepRecorded(o: seq<Phase>)
    ensures o + [CommunicateViscosity] + SetTimeStepPhases() +
      [WallVelocity] + [WallFGH] + [WallK] + [WallEpsilon] + [UpdateKOld] + [KIterate] +
      [UpdateEpsOld] + [EpsilonIterate] + [NuTUpdate] + [FGHIterate] + [RHSIterate] + [Solve] +
      [CommunicatePressure] + [VelocityIterate] + [ObstacleIterate] + [CommunicateVelocities] ==
      o + SolveTimestepPhases()
  {}

  /** The velocity maximum is reset before both iterators that fill it. */
  lemma VelocityResetBeforeScans()
    ensures var t := SetTimeStepPhases();
      Precedes(t, ResetMaxU, MaxUFieldIterate) && Precedes(t, ResetMaxU, MaxUBoundaryIterate)
  {
    var t := SetTimeStepPhases();
    SetTimeStepRanked();
    assert OnlyAt(t, ResetMaxU, 0) && OnlyAt(t, MaxUFieldIterate, 3) && OnlyAt(t, MaxUBoundaryIterate, 4);
  }

  /** The k and epsilon maxima are reset before the iterators that fill them. */
  lemma ScalarResetsBeforeScans()
    ensures var t := SetTimeStepPhases();
      Precedes(t, ResetMaxK, MaxKIterate) && Precedes(t, ResetMaxEps, MaxEpsIterate)
  {
    var t := SetTimeStepPhases();
    SetTimeStepRanked();
    assert OnlyAt(t, ResetMaxK, 1) && OnlyAt(t, MaxKIterate, 7);
    assert OnlyAt(t, ResetMaxEps, 2) && OnlyAt(t, MaxEpsIterate, 8);
  }

  /** The time-step stencil is reset right before its iterator. */
  lemma DtResetRightBeforeScan()
    ensures RightAfter(SetTimeStepPhases(), ResetDt, DtIterate)
  {
    SetTimeStepRanked();
    assert OnlyAt(SetTimeStepPhases(), DtIterate, 6);
  }

  /** The velocity and diffusion limits are found before the reduction. */
  lemma LimitsBeforeReduction()
    ensures var t := SetTimeStepPhases();
      Precedes(t, MaxUBoundaryIterate, ReduceMin) && Precedes(t, DtIterate, ReduceMin)
  {
    var t := SetTimeStepPhases();
    SetTimeStepRanked();
    assert OnlyAt(t, MaxUBoundaryIterate, 4) && OnlyAt(t, DtIterate, 6) && OnlyAt(t, ReduceMin, 9);
  }

  /** The k and epsilon maxima are found before the reduction, which ends setTimeStep. */
  lemma ScalarScansBeforeReduction()
    ensures var t := SetTimeStepPhases();
      Precedes(t, MaxKIterate, ReduceMin) && Precedes(t, MaxEpsIterate, ReduceMin) &&
      t[|t| - 1] == ReduceMin
  {
    var t := SetTimeStepPhases();
    SetTimeStepRanked();
    assert OnlyAt(t, MaxKIterate, 7) && OnlyAt(t, MaxEpsIterate, 8) && OnlyAt(t, ReduceMin, 9);
  }

  predicate IsBoundaryPhase(p: Phase) {
    p == WallVelocity || p == WallFGH || p == WallK || p == WallEpsilon
  }

  predicate IsInteriorPhase(p: Phase) {
    p == UpdateKOld || p == KIterate || p == UpdateEpsOld || p == EpsilonIterate ||
    p == NuTUpdate || p == FGHIterate || p == RHSIterate || p == Solve ||
    p == VelocityIterate || p == ObstacleIterate
  }

  /** A time step starts with the viscosity exchange and fixes its step size before it
      sets any boundary value. */
  lemma TimeStepBeforeBoundaries()
    ensures var t := SolveTimestepPhases();
      t[0] == CommunicateViscosity && t[1..11] == SetTimeStepPhases() &&
      Precedes(t, ReduceMin, WallVelocity)
  {
    var t := SolveTimestepPhases();
    SolveTimestepRanked();
    assert OnlyAt(t, ReduceMin, 10) && OnlyAt(t, WallVelocity, 11);
  }

  /** The boundary phases of a time step are at indices 11 to 14. */
  lemma BoundaryIndices()
    ensures var t := SolveTimestepPhases();
      forall i :: 0 <= i < |t| && IsBoundaryPhase(t[i]) ==> 11 <= i < 15
  {}

  /** The interior phases of a time step are at index 15 or later. */
  lemma InteriorIndices()
    ensures var t := SolveTimestepPhases();
      forall j :: 0 <= j < |t| && IsInteriorPhase(t[j]) ==> 15 <= j
  {}

  /** Every boundary phase of a time step comes before every interior phase. */
  lemma BoundariesBeforeInterior()
    ensures var t := SolveTimestepPhases();
      forall i, j :: 0 <= i < |t| && 0 <= j < |t| && IsBoundaryPhase(t[i]) && IsInteriorPhase(t[j]) ==> i < j
  {
    BoundaryIndices();
    InteriorIndices();
  }

  /** k and epsilon each keep a snapshot of their old values right before their transport
      iteration. */
  lemma SnapshotBeforeUpdate()
    ensures var t := SolveTimestepPhases();
      RightAfter(t, UpdateKOld, KIterate) && RightAfter(t, UpdateEpsOld, EpsilonIterate)
  {
    var t := SolveTimestepPhases();
    SolveTimestepRanked();
    assert OnlyAt(t, KIterate, 16) && OnlyAt(t, EpsilonIterate, 18);
  }

  /** k is advanced before epsilon's snapshot is taken. */
  lemma KBeforeEpsilonSnapshot()
    ensures Precedes(SolveTimestepPhases(), KIterate, UpdateEpsOld)
  {
    var t := SolveTimestepPhases();
    SolveTimestepRanked();
    assert OnlyAt(t, KIterate, 16) && OnlyAt(t, UpdateEpsOld, 17);
  }

  /** The viscosity is rebuilt from the new k and epsilon before the flux uses it. */
  lemma ViscosityBeforeFlux()
    ensures var t := SolveTimestepPhases();
      Precedes(t, EpsilonIterate, NuTUpdate) && Precedes(t, NuTUpdate, FGHIterate)
  {
    var t := SolveTimestepPhases();
    SolveTimestepRanked();
    assert OnlyAt(t, EpsilonIterate, 18) && OnlyAt(t, NuTUpdate, 19) && OnlyAt(t, FGHIterate, 20);
  }

  /** The flux precedes the right-hand side, which precedes the pressure solve. */
  lemma FluxBeforeSolve()
    ensures var t := SolveTimestepPhases();
      Precedes(t, FGHIterate, RHSIterate) && Precedes(t, RHSIterate, Solve)
  {
    var t := SolveTimestepPhases();
    SolveTimestepRanked();
    assert OnlyAt(t, FGHIterate, 20) && OnlyAt(t, RHSIterate, 21) && OnlyAt(t, Solve, 22);
  }

  /** The pressure is solved and exchanged before the velocity update, and the velocity
      exchange ends the step. */
  lemma SolveBeforeVelocity()
    ensures var t := SolveTimestepPhases();
      Precedes(t, Solve, CommunicatePressure) && Precedes(t, CommunicatePressure, VelocityIterate) &&
      t[|t| - 1] == CommunicateVelocities
  {
    var t := SolveTimestepPhases();
    SolveTimestepRanked();
    assert OnlyAt(t, Solve, 22) && OnlyAt(t, CommunicatePressure, 23) && OnlyAt(t, VelocityIterate, 24);
  }

  /** The initialisation starts with the base initialisation and the wall distance and ends
      with the viscosity, which runs once; k and epsilon are initialised exactly for the
      channel scenario. */
  lemma InitializeOrder(scenario: string)
    ensures var t := InitializePhases(scenario);
      t[0] == BaseInitialize && t[1] == HUpdate &&
      t[|t| - 1] == NuTUpdate && NuTUpdate !in t[..|t| - 1] &&
      (KInit in t <==> scenario == "channel") && (EpsilonInit in t <==> scenario == "channel")
  {}

  /** In the channel scenario k and epsilon are each initialised before their boundary, k first. */
  lemma ChannelInitializeOrder()
    ensures var t := InitializePhases("channel");
      Precedes(t, KInit, WallKInit) && Precedes(t, WallKInit, EpsilonInit) &&
      Precedes(t, EpsilonInit, WallEpsilonInit)
  {
    var t := InitializePhases("channel");
    assert OnlyAt(t, KInit, 2) && OnlyAt(t, WallKInit, 3);
    assert OnlyAt(t, EpsilonInit, 4) && OnlyAt(t, WallEpsilonInit, 5);
  }

  // ---------------------------------------------------------------------------------------
  // The driver
  // ---------------------------------------------------------------------------------------

  class TurbulentSimulationKE {
    const params: Parameters
    /** The shift added to every maximum before it is inverted: DoubleMin. */
    const tiny: real
    /** The accumulators of the maximum stencils and the limit of the time-step stencil. */
    var maxU: Vec3
    var maxK: real
    var maxEps: real
    var dtLimit: real
    /** The time step the next phases use. */
    var dt: real
    /** The phases run so far. */
    var trace: seq<Phase>

    constructor (params: Parameters)
      ensures this.params == params && tiny == DoubleMin && trace == []
    {
      this.params := params;
      tiny := DoubleMin;
      maxU, maxK, maxEps, dtLimit, dt := Vec3(0.0, 0.0, 0.0), 0.0, 0.0, 0.0, 0.0;
      trace := [];
    }

    /** Reset the accumulators, let the iterators fill them, form the local candidate, reduce
        it over all processes (`others` are the candidates of the other processes) and scale
        the result by the safety factor tau. The previous step's maxima are forgotten. */
    method SetTimeStep(scan: Scan, others: seq<real>)
      requires params.dim == 2 || params.dim == 3
      requires tiny > 0.0
      modifies this
      ensures maxU == ScannedMaxU(scan) && maxK == Max(0.0, scan.maxK) && maxEps == Max(0.0, scan.maxEps)
      ensures dtLimit == scan.dtLimit
      ensures dt == NextTimeStep(params.dim, params.tau, scan, others, tiny)
      ensures trace == old(trace) + SetTimeStepPhases()
    {
      var log := trace;
      SetTimeStepRecorded(log);
      maxU := Vec3(0.0, 0.0, 0.0);
      log := log + [ResetMaxU];
      maxK := 0.0;
      log := log + [ResetMaxK];
      maxEps := 0.0;
      log := log + [ResetMaxEps];

      maxU := MaxVec(maxU, scan.fieldMaxU);
      log := log + [MaxUFieldIterate];
      maxU := MaxVec(maxU, scan.boundaryMaxU);
      log := log + [MaxUBoundaryIterate];

      log := log + [ResetDt];
      dtLimit := scan.dtLimit;
      log := log + [DtIterate];

      var localMin := dtLimit;

      maxK := Max(maxK, scan.maxK);
      log := log + [MaxKIterate];
      maxEps := Max(maxEps, scan.maxEps);
      log := log + [MaxEpsIterate];

      // the leading inverse velocity bound (w in 3D, u in 2D) and the others, nested
      localMin := LocalCandidate(params.dim, localMin, maxU, maxK, maxEps, tiny);
      assert localMin == ScanCandidate(params.dim, scan, tiny);

      var globalMin := AllReduceMin([localMin] + others);
      log := log + [ReduceMin];
      trace := log;

      dt := globalMin;
      dt := Scale(dt, params.tau);
    }

    /** One time step: the viscosity exchange, the time step, the boundaries, the k and
        epsilon transport, the viscosity, the flux, the pressure and the velocity update. */
    method SolveTimestep(scan: Scan, others: seq<real>)
      requires params.dim == 2 || params.dim == 3
      requires tiny > 0.0
      modifies this
      ensures maxU == ScannedMaxU(scan) && maxK == Max(0.0, scan.maxK) && maxEps == Max(0.0, scan.maxEps)
      ensures dtLimit == scan.dtLimit
      ensures dt == NextTimeStep(params.dim, params.tau, scan, others, tiny)
      ensures trace == old(trace) + SolveTimestepPhases()
    {
      ghost var before := trace;
      trace := trace + [CommunicateViscosity];
      SetTimeStep(scan, others);

      var log := trace;
      SolveTimestepRecorded(before);
      log := log + [WallVelocity];
      log := log + [WallFGH];
      log := log + [WallK];
      log := log + [WallEpsilon];

      log := log + [UpdateKOld];
      log := log + [KIterate];

      log := log + [UpdateEpsOld];
      log := log + [EpsilonIterate];

      log := log + [NuTUpdate];

      log := log + [FGHIterate];
      log := log + [RHSIterate];
      log := log + [Solve];
      log := log + [CommunicatePressure];

      log := log + [VelocityIterate];
      log := log + [ObstacleIterate];

      log := log + [CommunicateVelocities];
      trace := log;
    }

    /** The initialisation: base, wall distance, the channel's k and epsilon fields with
        their boundaries, and the viscosity. */
    method InitializeFlowField()
      modifies this
      ensures trace == old(trace) + InitializePhases(params.scenario)
      ensures unchanged(this`dt) && unchanged(this`dtLimit)
      ensures unchanged(this`maxU) && unchanged(this`maxK) && unchanged(this`maxEps)
    {
      trace := trace + [BaseInitialize];
      trace := trace + [HUpdate];
      if params.scenario == "channel" {
        trace := trace + [KInit];
        trace := trace + [WallKInit];
        trace := trace + [EpsilonInit];
        trace := trace + [WallEpsilonInit];
      }
      trace := trace + [NuTUpdate];
    }
  }
}
