/** Inlet boundary stencils of the backward-facing-step scenario.

    Each stencil holds a step height: the configured fraction of the channel height, moved
    at construction onto the upper face of the y-cell (in column i = 0) whose centre lies just
    below it. The left face writes the inlet value into the boundary cell; every other face is
    a no-op. The profile functions are zero below the step. */
module BFInput {
  import opened MeshGeometry
  import opened Fields

  datatype Option<T> = None | Some(value: T)

  // ---------------------------------------------------------------------------------------
  // Step height and snapping
  // ---------------------------------------------------------------------------------------

  /** The step height before snapping: the ratio times the channel height; a non-positive
      ratio means there is no step. */
  function RawStepHeight(yRatio: real, lengthY: real): (s: real)
    ensures yRatio <= 0.0 ==> s == 0.0
  {
    if yRatio > 0.0 then yRatio * lengthY else 0.0
  }

  /** A ratio strictly between 0 and 1 puts the raw step strictly inside a channel of
      positive height. */
  lemma RawStepInsideChannel(yRatio: real, lengthY: real)
    requires 0.0 < yRatio < 1.0 && lengthY > 0.0
    ensures 0.0 < RawStepHeight(yRatio, lengthY) < lengthY
  {
    var s := RawStepHeight(yRatio, lengthY);
    var below := (yRatio - 1.0) * lengthY;
    MulNegative(yRatio - 1.0, lengthY);
    assert s - lengthY == below;
    MulPositive(yRatio, lengthY);
  }

  lemma MulNegative(a: real, b: real)
    requires a < 0.0 && b > 0.0
    ensures a * b < 0.0
  {}

  /** s lies above the centre of cell j and at or below the centre of the next cell
      (written, as the constructors' test writes it, as that cell's upper face plus half the
      next spacing). */
  predicate Brackets(m: Mesh, j: nat, s: real)
    requires m.Valid() && j + 1 < |m.posY|
  {
    m.posY[j] + 0.5 * m.dy[j] < s <= m.posY[j] + m.dy[j] + 0.5 * m.dy[j + 1]
  }

  /** The first j with from <= j < n - 1 whose bracket holds s, if any. */
  function FirstBracket(m: Mesh, n: int, s: real, from: nat): (r: Option<nat>)
    requires m.Valid() && n <= |m.posY|
    ensures r.Some? ==>
      from <= r.value && r.value + 1 < n && Brackets(m, r.value, s) &&
      forall j :: from <= j < r.value ==> !Brackets(m, j, s)
    ensures r.None? ==> forall j :: from <= j && j + 1 < n ==> !Brackets(m, j, s)
    decreases n - from
  {
    if n <= from + 1 then None
    else if Brackets(m, from, s) then Some(from)
    else FirstBracket(m, n, s, from + 1)
  }

  /** The step height after snapping over the first n cells of the column: the upper face of
      the first cell whose bracket holds s, or s itself when no bracket does. */
  function SnappedStepHeight(m: Mesh, n: int, s: real): (r: real)
    requires m.Valid() && n <= |m.posY|
    ensures (forall j :: 0 <= j && j + 1 < n ==> !Brackets(m, j, s)) ==> r == s
    ensures forall j :: 0 <= j && j + 1 < n && Brackets(m, j, s) && (forall i :: 0 <= i < j ==> !Brackets(m, i, s)) ==>
      r == m.posY[j] + m.dy[j]
  {
    match FirstBracket(m, n, s, 0)
    case Some(j) => m.posY[j] + m.dy[j]
    case None => s
  }

  /** The search loop of the snapping stencils' constructors: scan j = 0 .. n - 2 and stop at
      the first cell whose bracket holds the step height. */
  method SnapToFace(m: Mesh, n: int, s: real) returns (r: real)
    requires m.Valid() && n <= |m.posY|
    ensures r == SnappedStepHeight(m, n, s)
  {
    r := s;
    var j := 0;
    while j < n - 1
      invariant 0 <= j <= if n >= 1 then n - 1 else 0
      invariant r == s
      invariant FirstBracket(m, n, s, 0) == FirstBracket(m, n, s, j)
    {
      if m.posY[j] + 0.5 * m.dy[j] < r && r <= m.posY[j] + m.dy[j] + 0.5 * m.dy[j + 1] {
        r := m.posY[j] + m.dy[j];
        break;
      }
      j := j + 1;
    }
  }

  /** The step height of a snapping stencil: snapped only for a 2D or 3D geometry. */
  function StencilStepHeight(p: Parameters, m: Mesh): real
    requires m.Valid() && p.sizeY <= |m.posY|
  {
    if p.dim == 2 || p.dim == 3 then SnappedStepHeight(m, p.sizeY, RawStepHeight(p.yRatio, p.lengthY)) else RawStepHeight(p.yRatio, p.lengthY)
  }

  /** With positive spacings a snapped height stays inside the bracket that matched. */
  lemma SnappedWithinBracket(m: Mesh, n: int, s: real)
    requires m.Valid() && n <= |m.posY| && PositiveSpacingY(m)
    requires FirstBracket(m, n, s, 0).Some?
    ensures Brackets(m, FirstBracket(m, n, s, 0).value, SnappedStepHeight(m, n, s))
  {
    var j := FirstBracket(m, n, s, 0).value;
    assert m.dy[j] > 0.0 && m.dy[j + 1] > 0.0;
  }

  /** On a contiguous column the bracket of cell j is (centre of j, centre of j + 1]. */
  lemma BracketIsCentreInterval(m: Mesh, j: nat, s: real)
    requires m.Valid() && ContiguousY(m) && j + 1 < |m.posY|
    ensures Brackets(m, j, s) <==> CentreY(m, j) < s <= CentreY(m, j + 1)
  {
    assert m.posY[j + 1] == m.posY[j] + m.dy[j];
  }

  /** Between the first and the last centre of a contiguous column with positive spacings
      some bracket always matches. */
  lemma {:induction false} BracketExists(m: Mesh, n: int, s: real, from: nat)
    requires m.Valid() && ContiguousY(m) && PositiveSpacingY(m) && n <= |m.posY|
    requires from + 1 < n && CentreY(m, from) < s <= CentreY(m, n - 1)
    ensures FirstBracket(m, n, s, from).Some?
    decreases n - from
  {
    BracketIsCentreInterval(m, from, s);
    if !Brackets(m, from, s) {
      assert s > CentreY(m, from + 1);
      BracketExists(m, n, s, from + 1);
    }
  }

  /** Snapping lands on a grid line: a step height between the first and the last cell
      centre of a contiguous column becomes the lower face of one of the cells 1 .. n - 1,
      never a point strictly inside a cell. */
  lemma SnapLandsOnFace(m: Mesh, n: int, s: real)
    requires m.Valid() && ContiguousY(m) && PositiveSpacingY(m) && n <= |m.posY|
    requires 1 < n && CentreY(m, 0) < s <= CentreY(m, n - 1)
    ensures exists f :: 0 < f < n && SnappedStepHeight(m, n, s) == m.posY[f]
  {
    BracketExists(m, n, s, 0);
    var j := FirstBracket(m, n, s, 0).value;
    assert SnappedStepHeight(m, n, s) == m.posY[j + 1];
  }

  function Abs(x: real): real {
    if x < 0.0 then -x else x
  }

  /** The matched face is the grid line nearest to the raw height: no lower face of the
      first n cells is closer. */
  lemma SnapIsNearestFace(m: Mesh, n: int, s: real, q: nat)
    requires m.Valid() && ContiguousY(m) && PositiveSpacingY(m) && n <= |m.posY|
    requires FirstBracket(m, n, s, 0).Some? && q < n
    ensures Abs(SnappedStepHeight(m, n, s) - s) <= Abs(m.posY[q] - s)
  {
    var j := FirstBracket(m, n, s, 0).value;
    var f := m.posY[j + 1];
    assert SnappedStepHeight(m, n, s) == f;
    BracketIsCentreInterval(m, j, s);
    assert m.dy[j] > 0.0 && m.dy[j + 1] > 0.0;
    if q < j {
      FacesIncrease(m, q, j);
    } else if j + 1 < q {
      FacesIncrease(m, j + 1, q);
    }
  }

  /** Snapping an already snapped height changes nothing. */
  lemma SnapIdempotent(m: Mesh, n: int, s: real)
    requires m.Valid() && ContiguousY(m) && PositiveSpacingY(m) && n <= |m.posY|
    requires FirstBracket(m, n, s, 0).Some?
    ensures SnappedStepHeight(m, n, SnappedStepHeight(m, n, s)) == SnappedStepHeight(m, n, s)
  {
    var j := FirstBracket(m, n, s, 0).value;
    var f := SnappedStepHeight(m, n, s);
    SnappedWithinBracket(m, n, s);
    forall i | 0 <= i < j
      ensures !Brackets(m, i, f)
    {
      BracketIsCentreInterval(m, i, f);
      BracketIsCentreInterval(m, j, f);
      if i + 1 < j {
        FacesIncrease(m, i + 1, j);
      }
    }
  }

  // ---------------------------------------------------------------------------------------
  // Inlet profiles
  // ---------------------------------------------------------------------------------------

  /** The centre of cell j is at or above the step. */
  predicate AboveStep(m: Mesh, j: nat, stepSize: real)
    requires m.Valid() && j < |m.posY|
  {
    m.posY[j] + 0.5 * m.dy[j] >= stepSize
  }

  /** 6 U / H^2, the leading factor of the 2D inlet parabola (divided by H twice, which is
      the same real number as dividing by H * H). */
  function ParabolaCoefficient(u: real, h: real): real
    requires h != 0.0
  {
    6.0 * u / h / h
  }

  /** 2D inlet velocity: a parabola over the opening between the step and the top wall,
      zero below the step. */
  function ComputeVelocity2D(m: Mesh, j: nat, stepSize: real, p: Parameters): (u: real)
    requires m.Valid() && j < |m.posY|
    requires AboveStep(m, j, stepSize) ==> p.lengthY != stepSize
    ensures !AboveStep(m, j, stepSize) ==> u == 0.0
  {
    if AboveStep(m, j, stepSize) then
      var h := p.lengthY - stepSize;
      var y := m.posY[j] + 0.5 * m.dy[j] - stepSize;
      ParabolaCoefficient(p.inletVelocity, h) * y * (h - y)
    else
      0.0
  }

  /** The 2D profile vanishes on the step and on the top wall, reaches 1.5 times the inlet
      velocity half way between them (so its mean over the opening is the inlet velocity),
      and stays between 0 and that peak inside the opening. */
  lemma VelocityProfile2DShape(m: Mesh, j: nat, stepSize: real, p: Parameters)
    requires m.Valid() && j < |m.posY| && AboveStep(m, j, stepSize) && p.lengthY != stepSize
    ensures var h := p.lengthY - stepSize;
            var y := CentreY(m, j) - stepSize;
            var u := ComputeVelocity2D(m, j, stepSize, p);
            (y == 0.0 ==> u == 0.0) &&
            (y == h ==> u == 0.0) &&
            (2.0 * y == h ==> u == 1.5 * p.inletVelocity) &&
            (y <= h && p.inletVelocity >= 0.0 ==> 0.0 <= u <= 1.5 * p.inletVelocity)
  {
    var h := p.lengthY - stepSize;
    var y := CentreY(m, j) - stepSize;
    var c := ParabolaCoefficient(p.inletVelocity, h);
    assert ComputeVelocity2D(m, j, stepSize, p) == c * y * (h - y);
    CoefficientTimesSquare(p.inletVelocity, h);
    if 2.0 * y == h {
      assert c * y * (h - y) == c * h * h / 4.0;
    }
    if y <= h && p.inletVelocity >= 0.0 {
      CoefficientNonneg(p.inletVelocity, h);
      ParabolaPeak(c, y, h);
    }
  }

  lemma CoefficientTimesSquare(u: real, h: real)
    requires h != 0.0
    ensures ParabolaCoefficient(u, h) * h * h == 6.0 * u
  {
    var a := 6.0 * u / h;
    assert a * h == 6.0 * u;
    assert (a / h) * h == a;
  }

  lemma CoefficientNonneg(u: real, h: real)
    requires h > 0.0 && u >= 0.0
    ensures ParabolaCoefficient(u, h) >= 0.0
  {
    assert 6.0 * u / h >= 0.0;
  }

  /** c y (h - y) over 0 <= y <= h lies between 0 and its value c h^2 / 4 at y = h / 2. */
  lemma ParabolaPeak(c: real, y: real, h: real)
    requires c >= 0.0 && 0.0 <= y <= h
    ensures 0.0 <= c * y * (h - y) <= c * h * h / 4.0
  {
    var q := y * (h - y);
    assert 0.0 <= q;
    var d := y - h / 2.0;
    assert d * d >= 0.0;
    assert h * h / 4.0 - q == d * d;
    MulLeftMono(c, 0.0, q);
    MulLeftMono(c, q, h * h / 4.0);
    assert c * y * (h - y) == c * q;
    assert c * (h * h / 4.0) == c * h * h / 4.0;
  }

  lemma MulLeftMono(c: real, a: real, b: real)
    requires c >= 0.0 && a <= b
    ensures c * a <= c * b
  {}

  /** 36 U / (Z^2 H^2), the factor of the active 3D inlet law (again as repeated division). */
  function LinearCoefficient(u: real, lz: real, h: real): real
    requires lz != 0.0 && h != 0.0
  {
    36.0 * u / lz / lz / h / h
  }

  /** 3D inlet velocity as the code has it: the bi-parabolic factors are commented out, so
      the active law is linear in the height above the step. */
  function ComputeVelocity3D(m: Mesh, j: nat, stepSize: real, p: Parameters): (u: real)
    requires m.Valid() && j < |m.posY|
    requires AboveStep(m, j, stepSize) ==> p.lengthY != stepSize && p.lengthZ != 0.0
    ensures !AboveStep(m, j, stepSize) ==> u == 0.0
  {
    if AboveStep(m, j, stepSize) then
      var h := p.lengthY - stepSize;
      var y := m.posY[j] + 0.5 * m.dy[j] - stepSize;
      LinearCoefficient(p.inletVelocity, p.lengthZ, h) * y
    else
      0.0
  }

  /** The active 3D law is zero on the step and grows in proportion to the height above it;
      unlike the 2D parabola it does not vanish at the top wall. */
  lemma VelocityProfile3DLinear(m: Mesh, j1: nat, j2: nat, stepSize: real, p: Parameters)
    requires m.Valid() && j1 < |m.posY| && j2 < |m.posY| && p.lengthY != stepSize && p.lengthZ != 0.0
    requires AboveStep(m, j1, stepSize) && AboveStep(m, j2, stepSize)
    ensures var y1 := CentreY(m, j1) - stepSize;
            var y2 := CentreY(m, j2) - stepSize;
            var u1 := ComputeVelocity3D(m, j1, stepSize, p);
            var u2 := ComputeVelocity3D(m, j2, stepSize, p);
            (y1 == 0.0 ==> u1 == 0.0) &&
            u1 * y2 == u2 * y1 &&
            (y1 == p.lengthY - stepSize && p.inletVelocity != 0.0 ==> u1 != 0.0)
  {
    var h := p.lengthY - stepSize;
    var c := LinearCoefficient(p.inletVelocity, p.lengthZ, h);
    var y1 := CentreY(m, j1) - stepSize;
    var y2 := CentreY(m, j2) - stepSize;
    assert ComputeVelocity3D(m, j1, stepSize, p) == c * y1;
    assert ComputeVelocity3D(m, j2, stepSize, p) == c * y2;
    assert c * y1 * y2 == c * y2 * y1;
    if p.inletVelocity != 0.0 {
      DivNonzero(36.0 * p.inletVelocity, p.lengthZ);
      DivNonzero(36.0 * p.inletVelocity / p.lengthZ, p.lengthZ);
      DivNonzero(36.0 * p.inletVelocity / p.lengthZ / p.lengthZ, h);
      DivNonzero(36.0 * p.inletVelocity / p.lengthZ / p.lengthZ / h, h);
      MulNonzero(c, h);
    }
  }

  lemma DivNonzero(a: real, d: real)
    requires a != 0.0 && d != 0.0
    ensures a / d != 0.0
  {}

  lemma MulNonzero(a: real, b: real)
    requires a != 0.0 && b != 0.0
    ensures a * b != 0.0
  {}

  /** 0.003 U^2: the near-wall turbulent kinetic energy estimate of the inlet. */
  function InletK(p: Parameters): (kv: real)
    ensures kv >= 0.0
  {
    0.003 * p.inletVelocity * p.inletVelocity
  }

  /** 2D inlet k: the estimate above the step, zero below it. */
  function ComputeK2D(m: Mesh, j: nat, stepSize: real, p: Parameters): (kv: real)
    requires m.Valid() && j < |m.posY|
    ensures !AboveStep(m, j, stepSize) ==> kv == 0.0
    ensures AboveStep(m, j, stepSize) ==> kv == InletK(p)
    ensures kv >= 0.0
  {
    if AboveStep(m, j, stepSize) then InletK(p) else 0.0
  }

  /** 3D inlet k: above the step, the boundary value is chosen so that its mean with the
      first interior cell, kRight, equals the 2D estimate. */
  function ComputeK3D(m: Mesh, j: nat, stepSize: real, p: Parameters, kRight: real): (kv: real)
    requires m.Valid() && j < |m.posY|
    ensures !AboveStep(m, j, stepSize) ==> kv == 0.0
    ensures AboveStep(m, j, stepSize) ==> (kv + kRight) / 2.0 == ComputeK2D(m, j, stepSize, p)
  {
    if AboveStep(m, j, stepSize) then 2.0 * InletK(p) - kRight else 0.0
  }

  /** cmu (0.003 U^2)^1.5 / (0.03 H): the inlet dissipation estimate over an opening of
      height h. The power is not arithmetic here; `pow15` stands for x |-> x^1.5. */
  function EpsilonEstimate(p: Parameters, h: real, pow15: real -> real): (e: real)
    requires h != 0.0
    ensures p.cmu > 0.0 && h > 0.0 && pow15(InletK(p)) > 0.0 ==> e > 0.0
  {
    EstimatePositive(p.cmu, pow15(InletK(p)), h);
    p.cmu * pow15(InletK(p)) / (0.03 * h)
  }

  lemma EstimatePositive(cmu: real, scale: real, h: real)
    requires h != 0.0
    ensures cmu > 0.0 && scale > 0.0 && h > 0.0 ==> cmu * scale / (0.03 * h) > 0.0
  {
    if cmu > 0.0 && scale > 0.0 && h > 0.0 {
      MulPositive(cmu, scale);
      DivPositive(cmu * scale, 0.03 * h);
    }
  }

  lemma DivPositive(a: real, d: real)
    requires a > 0.0 && d > 0.0
    ensures a / d > 0.0
  {}

  /** 2D inlet epsilon: the estimate above the step, zero below it. */
  function ComputeEpsilon2D(m: Mesh, j: nat, stepSize: real, p: Parameters, pow15: real -> real): (e: real)
    requires m.Valid() && j < |m.posY|
    requires AboveStep(m, j, stepSize) ==> p.lengthY != stepSize
    ensures !AboveStep(m, j, stepSize) ==> e == 0.0
    ensures (AboveStep(m, j, stepSize) && p.cmu > 0.0 && p.lengthY > stepSize && pow15(InletK(p)) > 0.0) ==> e > 0.0
  {
    if AboveStep(m, j, stepSize) then
      EpsilonEstimate(p, p.lengthY - stepSize, pow15)
    else
      0.0
  }

  /** 3D inlet epsilon: twice the estimate minus the first interior cell, so that their
      mean is the 2D estimate. */
  function ComputeEpsilon3D(m: Mesh, j: nat, stepSize: real, p: Parameters, pow15: real -> real, epsRight: real): (e: real)
    requires m.Valid() && j < |m.posY|
    requires AboveStep(m, j, stepSize) ==> p.lengthY != stepSize
    ensures !AboveStep(m, j, stepSize) ==> e == 0.0
    ensures AboveStep(m, j, stepSize) ==> (e + epsRight) / 2.0 == ComputeEpsilon2D(m, j, stepSize, p, pow15)
  {
    if AboveStep(m, j, stepSize) then
      2.0 * EpsilonEstimate(p, p.lengthY - stepSize, pow15) - epsRight
    else
      0.0
  }

  // ---------------------------------------------------------------------------------------
  // The four inlet stencils
  // ---------------------------------------------------------------------------------------

  /** The inlet profile of cell j can be evaluated: the opening above the step is not empty
      when the cell is above the step (3D also needs a non-zero depth). */
  predicate ProfileDefined(m: Mesh, j: nat, stepSize: real, p: Parameters, threeD: bool)
  {
    m.Valid() && j < |m.posY| &&
    (AboveStep(m, j, stepSize) ==> p.lengthY != stepSize && (threeD ==> p.lengthZ != 0.0))
  }

  class BFInputVelocityStencil {
    const params: Parameters
    const mesh: Mesh
    var stepSize: real

    constructor (params: Parameters, mesh: Mesh)
      requires mesh.Valid() && params.sizeY <= |mesh.posY|
      ensures this.params == params && this.mesh == mesh
      ensures stepSize == StencilStepHeight(params, mesh)
    {
      this.params, this.mesh := params, mesh;
      var s := RawStepHeight(params.yRatio, params.lengthY);
      if params.dim == 2 || params.dim == 3 {
        // both dimensions scan column i = 0 (and k = 0 in 3D) of the y-axis
        s := SnapToFace(mesh, params.sizeY, s);
      }
      stepSize := s;
    }

    /** Left face: u becomes the inlet profile, v the reflection of the first interior
        cell's v (so their mean on the face is zero). Other faces change nothing. */
    method ApplyWall2D(field: FlowField2D, face: Face, i: nat, j: nat)
      requires field.Valid() && face.InPlane()
      requires face == Left ==> i + 1 < field.nx && j < field.ny && ProfileDefined(mesh, j, stepSize, params, false)
      modifies field.velocity
      ensures face != Left ==> unchanged(field.velocity)
      ensures face == Left ==>
        field.velocity[i, j] == Vec2(ComputeVelocity2D(mesh, j, stepSize, params), -field.velocity[i + 1, j].y) &&
        OthersUnchanged2D(field.velocity, i, j)
    {
      if face == Left {
        field.velocity[i, j] := field.velocity[i, j].(x := ComputeVelocity2D(mesh, j, stepSize, params));
        field.velocity[i, j] := field.velocity[i, j].(y := -field.velocity[i + 1, j].y);
      }
    }

    /** Left face in 3D: u from the profile, v and w reflected from the first interior cell. */
    method ApplyWall3D(field: FlowField3D, face: Face, i: nat, j: nat, k: nat)
      requires field.Valid()
      requires face == Left ==>
        i + 1 < field.nx && j < field.ny && k < field.nz && ProfileDefined(mesh, j, stepSize, params, true)
      modifies field.velocity
      ensures face != Left ==> unchanged(field.velocity)
      ensures face == Left ==>
        field.velocity[i, j, k] == Vec3(ComputeVelocity3D(mesh, j, stepSize, params),
                                        -field.velocity[i + 1, j, k].y, -field.velocity[i + 1, j, k].z) &&
        OthersUnchanged3D(field.velocity, i, j, k)
    {
      if face == Left {
        field.velocity[i, j, k] := field.velocity[i, j, k].(x := ComputeVelocity3D(mesh, j, stepSize, params));
        field.velocity[i, j, k] := field.velocity[i, j, k].(y := -field.velocity[i + 1, j, k].y);
        field.velocity[i, j, k] := field.velocity[i, j, k].(z := -field.velocity[i + 1, j, k].z);
      }
    }
  }

  /** The flux inlet: writes the normal flux component only, and its step height is the raw
      configured value, never snapped. */
  class BFInputFGHStencil {
    const params: Parameters
    const mesh: Mesh
    var stepSize: real

    constructor (params: Parameters, mesh: Mesh)
      ensures this.params == params && this.mesh == mesh
      ensures stepSize == RawStepHeight(params.yRatio, params.lengthY)
    {
      this.params, this.mesh := params, mesh;
      stepSize := RawStepHeight(params.yRatio, params.lengthY);
    }

    method ApplyWall2D(field: FlowField2D, face: Face, i: nat, j: nat)
      requires field.Valid() && face.InPlane()
      requires face == Left ==> i < field.nx && j < field.ny && ProfileDefined(mesh, j, stepSize, params, false)
      modifies field.fgh
      ensures face != Left ==> unchanged(field.fgh)
      ensures face == Left ==>
        field.fgh[i, j] == old(field.fgh[i, j]).(x := ComputeVelocity2D(mesh, j, stepSize, params)) &&
        OthersUnchanged2D(field.fgh, i, j)
    {
      if face == Left {
        field.fgh[i, j] := field.fgh[i, j].(x := ComputeVelocity2D(mesh, j, stepSize, params));
      }
    }

    method ApplyWall3D(field: FlowField3D, face: Face, i: nat, j: nat, k: nat)
      requires field.Valid()
      requires face == Left ==>
        i < field.nx && j < field.ny && k < field.nz && ProfileDefined(mesh, j, stepSize, params, true)
      modifies field.fgh
      ensures face != Left ==> unchanged(field.fgh)
      ensures face == Left ==>
        field.fgh[i, j, k] == old(field.fgh[i, j, k]).(x := ComputeVelocity3D(mesh, j, stepSize, params)) &&
        OthersUnchanged3D(field.fgh, i, j, k)
    {
      if face == Left {
        field.fgh[i, j, k] := field.fgh[i, j, k].(x := ComputeVelocity3D(mesh, j, stepSize, params));
      }
    }
  }

  class BFInputKStencil {
    const params: Parameters
    const mesh: Mesh
    var stepSize: real

    constructor (params: Parameters, mesh: Mesh)
      requires mesh.Valid() && params.sizeY <= |mesh.posY|
      ensures this.params == params && this.mesh == mesh
      ensures stepSize == StencilStepHeight(params, mesh)
    {
      this.params, this.mesh := params, mesh;
      var s := RawStepHeight(params.yRatio, params.lengthY);
      if params.dim == 2 || params.dim == 3 {
        s := SnapToFace(mesh, params.sizeY, s);
      }
      stepSize := s;
    }

    method ApplyWall2D(field: FlowField2D, face: Face, i: nat, j: nat)
      requires field.Valid() && face.InPlane()
      requires face == Left ==> i < field.nx && j < field.ny && mesh.Valid() && j < |mesh.posY|
      modifies field.k
      ensures face != Left ==> unchanged(field.k)
      ensures face == Left ==>
        field.k[i, j] == ComputeK2D(mesh, j, stepSize, params) && OthersUnchanged2D(field.k, i, j)
    {
      if face == Left {
        field.k[i, j] := ComputeK2D(mesh, j, stepSize, params);
      }
    }

    method ApplyWall3D(field: FlowField3D, face: Face, i: nat, j: nat, k: nat)
      requires field.Valid()
      requires face == Left ==> i + 1 < field.nx && j < field.ny && k < field.nz && mesh.Valid() && j < |mesh.posY|
      modifies field.k
      ensures face != Left ==> unchanged(field.k)
      ensures face == Left ==>
        field.k[i, j, k] == ComputeK3D(mesh, j, stepSize, params, field.k[i + 1, j, k]) &&
        OthersUnchanged3D(field.k, i, j, k)
    {
      if face == Left {
        field.k[i, j, k] := ComputeK3D(mesh, j, stepSize, params, field.k[i + 1, j, k]);
      }
    }
  }

  class BFInputEpsilonStencil {
    const params: Parameters
    const mesh: Mesh
    const pow15: real -> real
    var stepSize: real

    constructor (params: Parameters, mesh: Mesh, pow15: real -> real)
      requires mesh.Valid() && params.sizeY <= |mesh.posY|
      ensures this.params == params && this.mesh == mesh && this.pow15 == pow15
      ensures stepSize == StencilStepHeight(params, mesh)
    {
      this.params, this.mesh, this.pow15 := params, mesh, pow15;
      var s := RawStepHeight(params.yRatio, params.lengthY);
      if params.dim == 2 || params.dim == 3 {
        s := SnapToFace(mesh, params.sizeY, s);
      }
      stepSize := s;
    }

    method ApplyWall2D(field: FlowField2D, face: Face, i: nat, j: nat)
      requires field.Valid() && face.InPlane()
      requires face == Left ==> i < field.nx && j < field.ny && ProfileDefined(mesh, j, stepSize, params, false)
      modifies field.eps
      ensures face != Left ==> unchanged(field.eps)
      ensures face == Left ==>
        field.eps[i, j] == ComputeEpsilon2D(mesh, j, stepSize, params, pow15) && OthersUnchanged2D(field.eps, i, j)
    {
      if face == Left {
        field.eps[i, j] := ComputeEpsilon2D(mesh, j, stepSize, params, pow15);
      }
    }

    method ApplyWall3D(field: FlowField3D, face: Face, i: nat, j: nat, k: nat)
      requires field.Valid()
      requires face == Left ==>
        i + 1 < field.nx && j < field.ny && k < field.nz && ProfileDefined(mesh, j, stepSize, params, false)
      modifies field.eps
      ensures face != Left ==> unchanged(field.eps)
      ensures face == Left ==>
        field.eps[i, j, k] == ComputeEpsilon3D(mesh, j, stepSize, params, pow15, field.eps[i + 1, j, k]) &&
        OthersUnchanged3D(field.eps, i, j, k)
    {
      if face == Left {
        field.eps[i, j, k] := ComputeEpsilon3D(mesh, j, stepSize, params, pow15, field.eps[i + 1, j, k]);
      }
    }
  }

  /** The flux inlet does not snap while the velocity inlet does, so on a mesh whose faces
      miss the raw height the two inlets use different step heights and write different
      profile values into the same boundary cell. Mesh: three unit cells; step ratio 0.4 of a
      height 3, i.e. 1.2, snapped to the face at 1.0. */
  lemma FluxInletDisagreesWithVelocityInlet()
    ensures var m := Mesh([], [0.0, 1.0, 2.0], [1.0, 1.0, 1.0], []);
            var p := Parameters(2, 3, 3.0, 1.0, 0.4, 1.0, 0.09, 0.5, "backstep");
            RawStepHeight(p.yRatio, p.lengthY) == 1.2 && StencilStepHeight(p, m) == 1.0 &&
            ComputeVelocity2D(m, 1, StencilStepHeight(p, m), p) != ComputeVelocity2D(m, 1, RawStepHeight(p.yRatio, p.lengthY), p)
  {
    var m := Mesh([], [0.0, 1.0, 2.0], [1.0, 1.0, 1.0], []);
    var p := Parameters(2, 3, 3.0, 1.0, 0.4, 1.0, 0.09, 0.5, "backstep");
    assert Brackets(m, 0, 1.2);
    assert FirstBracket(m, 3, 1.2, 0) == Some(0);
    assert ComputeVelocity2D(m, 1, 1.0, p) == 1.125;
    assert ComputeVelocity2D(m, 1, 1.2, p) == 6.0 / (1.8 * 1.8) * 0.3 * 1.5;
  }
}
