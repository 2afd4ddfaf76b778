/** The momentum-flux stencils: each application writes the F, G (and H) components of one
    cell's FGH vector from the velocities (and turbulent viscosities) around the cell.

    The discretisation kernels that compute F, G and H are not part of this model: each is
    a function-typed constant of its stencil, taking the local windows and the time step.
    What is modelled is which cell and which components an application writes, under the
    obstacle flags of the 3D cell. */
module FluxStencils {
  import opened MeshGeometry
  import opened Fields

  /** A flux kernel of the laminar stencil: velocity window, mesh window, time step. */
  type Kernel2D = (seq<Vec2>, seq<real>, real) -> real
  type Kernel3D = (seq<Vec3>, seq<real>, real) -> real
  /** A flux kernel of a turbulent stencil: it also reads a window of turbulent viscosities. */
  type TurbulentKernel2D = (seq<Vec2>, seq<real>, seq<real>, real) -> real
  type TurbulentKernel3D = (seq<Vec3>, seq<real>, seq<real>, real) -> real

  // ---------------------------------------------------------------------------------------
  // Local windows
  // ---------------------------------------------------------------------------------------

  /** (i, j) has a full 3 x 3 neighbourhood inside an nx-by-ny field. */
  predicate Interior2D(nx: int, ny: int, i: int, j: int) {
    1 <= i && i + 1 < nx && 1 <= j && j + 1 < ny
  }

  predicate Interior3D(nx: int, ny: int, nz: int, i: int, j: int, k: int) {
    1 <= i && i + 1 < nx && 1 <= j && j + 1 < ny && 1 <= k && k + 1 < nz
  }

  /** The velocities of the 3 x 3 cells around (i, j), x running fastest. */
  function VelocityWindow2D(field: FlowField2D, i: int, j: int): seq<Vec2>
    requires field.Valid() && Interior2D(field.nx, field.ny, i, j)
    reads field.velocity
  {
    seq(9, n requires 0 <= n < 9 reads field.velocity => field.velocity[i - 1 + n % 3, j - 1 + n / 3])
  }

  /** The turbulent viscosities of the 3 x 3 cells around (i, j), in the same order. */
  function ViscosityWindow2D(field: FlowField2D, i: int, j: int): seq<real>
    requires field.Valid() && Interior2D(field.nx, field.ny, i, j)
    reads field.nuT
  {
    seq(9, n requires 0 <= n < 9 reads field.nuT => field.nuT[i - 1 + n % 3, j - 1 + n / 3])
  }

  /** The velocities of the 3 x 3 x 3 cells around (i, j, k), x fastest, then y, then z. */
  function VelocityWindow3D(field: FlowField3D, i: int, j: int, k: int): seq<Vec3>
    requires field.Valid() && Interior3D(field.nx, field.ny, field.nz, i, j, k)
    reads field.velocity
  {
    seq(27, n requires 0 <= n < 27 reads field.velocity =>
      field.velocity[i - 1 + n % 3, j - 1 + (n / 3) % 3, k - 1 + n / 9])
  }

  /** The spacings around (i, j): dx of columns i - 1 .. i + 1, then dy of rows j - 1 .. j + 1. */
  function MeshWindow2D(m: Mesh, i: int, j: int): seq<real>
    requires 1 <= i && i + 1 < |m.dx| && 1 <= j && j + 1 < |m.dy|
  {
    m.dx[i - 1 .. i + 2] + m.dy[j - 1 .. j + 2]
  }

  function MeshWindow3D(m: Mesh, i: int, j: int, k: int): seq<real>
    requires 1 <= i && i + 1 < |m.dx| && 1 <= j && j + 1 < |m.dy| && 1 <= k && k + 1 < |m.dz|
  {
    m.dx[i - 1 .. i + 2] + m.dy[j - 1 .. j + 2] + m.dz[k - 1 .. k + 2]
  }

  // ---------------------------------------------------------------------------------------
  // The obstacle guard of a 3D flux write
  // ---------------------------------------------------------------------------------------

  /** The FGH vector of a 3D cell after one application, given its vector before (`was`),
      its obstacle flags and the three kernel values: a solid cell keeps everything; in a
      fluid cell a component is replaced by its kernel value exactly when the neighbour in
      its direction (right, top, back) is fluid. */
  function GuardedFlux(was: Vec3, obstacle: bv32, f: real, g: real, h: real): (r: Vec3)
    ensures IsSet(obstacle, ObstacleSelf) ==> r == was
    ensures r.x != was.x ==> !IsSet(obstacle, ObstacleSelf) && !IsSet(obstacle, ObstacleRight) && r.x == f
    ensures r.y != was.y ==> !IsSet(obstacle, ObstacleSelf) && !IsSet(obstacle, ObstacleTop) && r.y == g
    ensures r.z != was.z ==> !IsSet(obstacle, ObstacleSelf) && !IsSet(obstacle, ObstacleBack) && r.z == h
    ensures !IsSet(obstacle, ObstacleSelf) ==>
      (!IsSet(obstacle, ObstacleRight) ==> r.x == f) &&
      (!IsSet(obstacle, ObstacleTop) ==> r.y == g) &&
      (!IsSet(obstacle, ObstacleBack) ==> r.z == h)
  {
    if IsSet(obstacle, ObstacleSelf) then was
    else
      Vec3(if IsSet(obstacle, ObstacleRight) then was.x else f,
           if IsSet(obstacle, ObstacleTop) then was.y else g,
           if IsSet(obstacle, ObstacleBack) then was.z else h)
  }

  /** A second application with the same flags and kernel values changes nothing more. */
  lemma GuardedFluxIdempotent(was: Vec3, obstacle: bv32, f: real, g: real, h: real)
    ensures GuardedFlux(GuardedFlux(was, obstacle, f, g, h), obstacle, f, g, h) == GuardedFlux(was, obstacle, f, g, h)
  {
    var once := GuardedFlux(was, obstacle, f, g, h);
    var twice := GuardedFlux(once, obstacle, f, g, h);
    assert twice.x == once.x && twice.y == once.y && twice.z == once.z;
  }

  /** The kernel values (F, G, H) of one application. */
  datatype Flux = Flux(f: real, g: real, h: real)

  /** The FGH vector of a cell after applications with the given kernel values, in order,
      its flags staying the same. */
  function FluxAfter(was: Vec3, obstacle: bv32, steps: seq<Flux>): Vec3
    decreases |steps|
  {
    if |steps| == 0 then was
    else
      var last := steps[|steps| - 1];
      GuardedFlux(FluxAfter(was, obstacle, steps[..|steps| - 1]), obstacle, last.f, last.g, last.h)
  }

  /** However many times the flux stencil runs, a solid cell keeps its FGH vector, and a
      component whose neighbour is solid keeps its value; a fluid component holds the
      kernel value of the latest application. */
  lemma {:induction false} GuardedComponentsKept(was: Vec3, obstacle: bv32, steps: seq<Flux>)
    ensures IsSet(obstacle, ObstacleSelf) ==> FluxAfter(was, obstacle, steps) == was
    ensures IsSet(obstacle, ObstacleRight) ==> FluxAfter(was, obstacle, steps).x == was.x
    ensures IsSet(obstacle, ObstacleTop) ==> FluxAfter(was, obstacle, steps).y == was.y
    ensures IsSet(obstacle, ObstacleBack) ==> FluxAfter(was, obstacle, steps).z == was.z
    ensures |steps| > 0 && !IsSet(obstacle, ObstacleSelf) && !IsSet(obstacle, ObstacleRight) ==>
      FluxAfter(was, obstacle, steps).x == steps[|steps| - 1].f
    decreases |steps|
  {
    if |steps| > 0 {
      GuardedComponentsKept(was, obstacle, steps[..|steps| - 1]);
    }
  }

  // ---------------------------------------------------------------------------------------
  // The stencils
  // ---------------------------------------------------------------------------------------

  /** The laminar flux stencil. */
  class FGHStencil {
    const mesh: Mesh
    const computeF2D: Kernel2D
    const computeG2D: Kernel2D
    const computeF3D: Kernel3D
    const computeG3D: Kernel3D
    const computeH3D: Kernel3D

    constructor (mesh: Mesh, f2: Kernel2D, g2: Kernel2D, f3: Kernel3D, g3: Kernel3D, h3: Kernel3D)
      ensures this.mesh == mesh && computeF2D == f2 && computeG2D == g2
      ensures computeF3D == f3 && computeG3D == g3 && computeH3D == h3
    {
      this.mesh := mesh;
      computeF2D, computeG2D := f2, g2;
      computeF3D, computeG3D, computeH3D := f3, g3, h3;
    }

    /** 2D: both components of (i, j) are overwritten, whatever they held. */
    method Apply2D(field: FlowField2D, i: int, j: int, dt: real)
      requires field.Valid() && Interior2D(field.nx, field.ny, i, j)
      requires i + 1 < |mesh.dx| && j + 1 < |mesh.dy|
      modifies field.fgh
      ensures field.fgh[i, j] == Vec2(computeF2D(VelocityWindow2D(field, i, j), MeshWindow2D(mesh, i, j), dt),
                                      computeG2D(VelocityWindow2D(field, i, j), MeshWindow2D(mesh, i, j), dt))
      ensures OthersUnchanged2D(field.fgh, i, j)
      ensures unchanged(field.velocity)
    {
      var velocity := VelocityWindow2D(field, i, j);
      var meshsize := MeshWindow2D(mesh, i, j);
      field.fgh[i, j] := field.fgh[i, j].(x := computeF2D(velocity, meshsize, dt));
      field.fgh[i, j] := field.fgh[i, j].(y := computeG2D(velocity, meshsize, dt));
    }

    /** 3D: a solid cell is skipped; in a fluid cell each component is written only when
        the neighbour in its direction is fluid. */
    method Apply3D(field: FlowField3D, i: int, j: int, k: int, dt: real)
      requires field.Valid() && 0 <= i < field.nx && 0 <= j < field.ny && 0 <= k < field.nz
      requires !IsSet(field.flags[i, j, k], ObstacleSelf) ==>
        Interior3D(field.nx, field.ny, field.nz, i, j, k) && i + 1 < |mesh.dx| && j + 1 < |mesh.dy| && k + 1 < |mesh.dz|
      modifies field.fgh
      ensures IsSet(field.flags[i, j, k], ObstacleSelf) ==> unchanged(field.fgh)
      ensures !IsSet(field.flags[i, j, k], ObstacleSelf) ==>
        var velocity := VelocityWindow3D(field, i, j, k);
        var meshsize := MeshWindow3D(mesh, i, j, k);
        field.fgh[i, j, k] == GuardedFlux(old(field.fgh[i, j, k]), field.flags[i, j, k],
                                          computeF3D(velocity, meshsize, dt),
                                          computeG3D(velocity, meshsize, dt),
                                          computeH3D(velocity, meshsize, dt))
      ensures OthersUnchanged3D(field.fgh, i, j, k)
      ensures unchanged(field.velocity) && unchanged(field.flags)
    {
      var obstacle := field.flags[i, j, k];
      if !IsSet(obstacle, ObstacleSelf) {
        var velocity := VelocityWindow3D(field, i, j, k);
        var meshsize := MeshWindow3D(mesh, i, j, k);
        if !IsSet(obstacle, ObstacleRight) {
          field.fgh[i, j, k] := field.fgh[i, j, k].(x := computeF3D(velocity, meshsize, dt));
        }
        if !IsSet(obstacle, ObstacleTop) {
          field.fgh[i, j, k] := field.fgh[i, j, k].(y := computeG3D(velocity, meshsize, dt));
        }
        if !IsSet(obstacle, ObstacleBack) {
          field.fgh[i, j, k] := field.fgh[i, j, k].(z := computeH3D(velocity, meshsize, dt));
        }
      }
    }
  }

  /** The flux stencil of the algebraic turbulence model. */
  class TurbulentFGHStencil {
    const mesh: Mesh
    const computeF2D: TurbulentKernel2D
    const computeG2D: TurbulentKernel2D
    const computeF3D: TurbulentKernel3D
    const computeG3D: TurbulentKernel3D
    const computeH3D: TurbulentKernel3D

    constructor (mesh: Mesh, f2: TurbulentKernel2D, g2: TurbulentKernel2D,
                 f3: TurbulentKernel3D, g3: TurbulentKernel3D, h3: TurbulentKernel3D)
      ensures this.mesh == mesh && computeF2D == f2 && computeG2D == g2
      ensures computeF3D == f3 && computeG3D == g3 && computeH3D == h3
    {
      this.mesh := mesh;
      computeF2D, computeG2D := f2, g2;
      computeF3D, computeG3D, computeH3D := f3, g3, h3;
    }

    /** 2D: both components from the velocity and viscosity windows around (i, j). */
    method Apply2D(field: FlowField2D, i: int, j: int, dt: real)
      requires field.Valid() && Interior2D(field.nx, field.ny, i, j)
      requires i + 1 < |mesh.dx| && j + 1 < |mesh.dy|
      modifies field.fgh
      ensures field.fgh[i, j] ==
        Vec2(computeF2D(VelocityWindow2D(field, i, j), ViscosityWindow2D(field, i, j), MeshWindow2D(mesh, i, j), dt),
             computeG2D(VelocityWindow2D(field, i, j), ViscosityWindow2D(field, i, j), MeshWindow2D(mesh, i, j), dt))
      ensures OthersUnchanged2D(field.fgh, i, j)
      ensures unchanged(field.velocity) && unchanged(field.nuT)
    {
      var velocity := VelocityWindow2D(field, i, j);
      var viscosity := ViscosityWindow2D(field, i, j);
      var meshsize := MeshWindow2D(mesh, i, j);
      field.fgh[i, j] := field.fgh[i, j].(x := computeF2D(velocity, viscosity, meshsize, dt));
      field.fgh[i, j] := field.fgh[i, j].(y := computeG2D(velocity, viscosity, meshsize, dt));
    }

    /** 3D: the same guards as the laminar stencil. The viscosity window is not loaded here:
        the kernels receive whatever the stencil's viscosity buffer holds, `viscosity`. */
    method Apply3D(field: FlowField3D, i: int, j: int, k: int, dt: real, viscosity: seq<real>)
      requires field.Valid() && 0 <= i < field.nx && 0 <= j < field.ny && 0 <= k < field.nz
      requires !IsSet(field.flags[i, j, k], ObstacleSelf) ==>
        Interior3D(field.nx, field.ny, field.nz, i, j, k) && i + 1 < |mesh.dx| && j + 1 < |mesh.dy| && k + 1 < |mesh.dz|
      modifies field.fgh
      ensures IsSet(field.flags[i, j, k], ObstacleSelf) ==> unchanged(field.fgh)
      ensures !IsSet(field.flags[i, j, k], ObstacleSelf) ==>
        var velocity := VelocityWindow3D(field, i, j, k);
        var meshsize := MeshWindow3D(mesh, i, j, k);
        field.fgh[i, j, k] == GuardedFlux(old(field.fgh[i, j, k]), field.flags[i, j, k],
                                          computeF3D(velocity, viscosity, meshsize, dt),
                                          computeG3D(velocity, viscosity, meshsize, dt),
                                          computeH3D(velocity, viscosity, meshsize, dt))
      ensures OthersUnchanged3D(field.fgh, i, j, k)
      ensures unchanged(field.velocity) && unchanged(field.flags)
    {
      var obstacle := field.flags[i, j, k];
      if !IsSet(obstacle, ObstacleSelf) {
        var velocity := VelocityWindow3D(field, i, j, k);
        var meshsize := MeshWindow3D(mesh, i, j, k);
        if !IsSet(obstacle, ObstacleRight) {
          field.fgh[i, j, k] := field.fgh[i, j, k].(x := computeF3D(velocity, viscosity, meshsize, dt));
        }
        if !IsSet(obstacle, ObstacleTop) {
          field.fgh[i, j, k] := field.fgh[i, j, k].(y := computeG3D(velocity, viscosity, meshsize, dt));
        }
        if !IsSet(obstacle, ObstacleBack) {
          field.fgh[i, j, k] := field.fgh[i, j, k].(z := computeH3D(velocity, viscosity, meshsize, dt));
        }
      }
    }
  }

  /** The flux stencil of the k-epsilon model (2D only). */
  class TurbulentFGHStencilKE {
    const mesh: Mesh
    const computeF2D: TurbulentKernel2D
    const computeG2D: TurbulentKernel2D

    constructor (mesh: Mesh, f2: TurbulentKernel2D, g2: TurbulentKernel2D)
      ensures this.mesh == mesh && computeF2D == f2 && computeG2D == g2
    {
      this.mesh := mesh;
      computeF2D, computeG2D := f2, g2;
    }

    /** Both components from the velocity and turbulent-viscosity windows around (i, j). */
    method Apply2D(field: FlowField2D, i: int, j: int, dt: real)
      requires field.Valid() && Interior2D(field.nx, field.ny, i, j)
      requires i + 1 < |mesh.dx| && j + 1 < |mesh.dy|
      modifies field.fgh
      ensures field.fgh[i, j] ==
        Vec2(computeF2D(VelocityWindow2D(field, i, j), ViscosityWindow2D(field, i, j), MeshWindow2D(mesh, i, j), dt),
             computeG2D(VelocityWindow2D(field, i, j), ViscosityWindow2D(field, i, j), MeshWindow2D(mesh, i, j), dt))
      ensures OthersUnchanged2D(field.fgh, i, j)
      ensures unchanged(field.velocity) && unchanged(field.nuT)
    {
      var velocity := VelocityWindow2D(field, i, j);
      var viscosity := ViscosityWindow2D(field, i, j);
      var meshsize := MeshWindow2D(mesh, i, j);
      field.fgh[i, j] := field.fgh[i, j].(x := computeF2D(velocity, viscosity, meshsize, dt));
      field.fgh[i, j] := field.fgh[i, j].(y := computeG2D(velocity, viscosity, meshsize, dt));
    }
  }
}
