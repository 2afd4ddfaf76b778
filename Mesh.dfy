/** Geometry of the stretched Cartesian mesh and the configuration the stencils read.

    The mesh is a tensor product: the spacing along each axis depends only on that axis'
    cell index, so the y-position and y-spacing of cell (i, j[, k]) are posY[j] and dy[j].
    posY[j] is the lower face of cell j; its centre is posY[j] + dy[j] / 2. */
module MeshGeometry {

  datatype Mesh = Mesh(dx: seq<real>, posY: seq<real>, dy: seq<real>, dz: seq<real>)
  {
    /** One y-position per y-spacing. */
    predicate Valid() {
      |posY| == |dy|
    }
  }

  /** The configured quantities the stencils and the driver read (the Parameters object). */
  datatype Parameters = Parameters(
    dim: int,             // geometry.dim
    sizeY: int,           // geometry.sizeY
    lengthY: real,        // geometry.lengthY
    lengthZ: real,        // geometry.lengthZ
    yRatio: real,         // bfStep.yRatio: step height as a fraction of lengthY
    inletVelocity: real,  // walls.vectorLeft[0]
    cmu: real,            // turbulent.cmu
    tau: real,            // timestep.tau: safety factor of the time step
    scenario: string      // simulation.scenario
  )

  /** Centre of cell j along y. */
  function CentreY(m: Mesh, j: nat): real
    requires m.Valid() && j < |m.posY|
  {
    m.posY[j] + 0.5 * m.dy[j]
  }

  /** Every cell's upper face is the next cell's lower face. */
  ghost predicate ContiguousY(m: Mesh)
    requires m.Valid()
  {
    forall j :: 0 <= j && j + 1 < |m.posY| ==> m.posY[j + 1] == m.posY[j] + m.dy[j]
  }

  ghost predicate PositiveSpacingY(m: Mesh)
  {
    forall j :: 0 <= j < |m.dy| ==> m.dy[j] > 0.0
  }

  /** On a contiguous mesh with positive spacings the lower faces strictly increase,
      and a cell lies entirely below every later lower face. */
  lemma {:induction false} FacesIncrease(m: Mesh, a: nat, b: nat)
    requires m.Valid() && ContiguousY(m) && PositiveSpacingY(m)
    requires a < b < |m.posY|
    ensures m.posY[a] + m.dy[a] <= m.posY[b]
    ensures m.posY[a] < m.posY[b]
    decreases b - a
  {
    if a + 1 < b {
      FacesIncrease(m, a + 1, b);
    }
  }

  /** A product of two positive reals is positive; used by the stencils and the driver alike. */
  lemma MulPositive(a: real, b: real)
    requires a > 0.0 && b > 0.0
    ensures a * b > 0.0
  {}
}
