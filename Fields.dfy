/** Field storage: the staggered velocity, the momentum flux (FGH), the obstacle flags and the
    turbulence scalars, one array per quantity. A field is never resized, so every array is a
    `const` of its field object and only its elements change. */
module Fields {

  datatype Vec2 = Vec2(x: real, y: real)
  datatype Vec3 = Vec3(x: real, y: real, z: real)

  /** Obstacle-flag bits of a cell: the cell itself is solid, or its neighbour in one direction is. */
  const ObstacleSelf: bv32 := 1
  const ObstacleLeft: bv32 := 2
  const ObstacleRight: bv32 := 4
  const ObstacleBottom: bv32 := 8
  const ObstacleTop: bv32 := 16
  const ObstacleFront: bv32 := 32
  const ObstacleBack: bv32 := 64

  predicate IsSet(flags: bv32, bit: bv32) {
    flags & bit != 0
  }

  /** The faces of a subdomain a boundary stencil can be asked to treat. */
  datatype Face = Left | Right | Bottom | Top | Front | Back
  {
    /** The four faces of a 2D domain. */
    predicate InPlane() {
      !Front? && !Back?
    }
  }

  class FlowField2D {
    const nx: nat
    const ny: nat
    const velocity: array2<Vec2>
    const fgh: array2<Vec2>
    const k: array2<real>
    const eps: array2<real>
    const nuT: array2<real>

    /** Every array covers the nx-by-ny cells, and no two quantities a stencil reads and
        writes share storage. */
    ghost predicate Valid() {
      velocity.Length0 == nx && velocity.Length1 == ny &&
      fgh.Length0 == nx && fgh.Length1 == ny &&
      k.Length0 == nx && k.Length1 == ny &&
      eps.Length0 == nx && eps.Length1 == ny &&
      nuT.Length0 == nx && nuT.Length1 == ny &&
      velocity != fgh && k != eps && k != nuT && eps != nuT &&
      nuT as object != fgh && nuT as object != velocity
    }

    constructor (nx: nat, ny: nat)
      ensures Valid() && this.nx == nx && this.ny == ny
      ensures fresh(velocity) && fresh(fgh) && fresh(k) && fresh(eps) && fresh(nuT)
    {
      this.nx, this.ny := nx, ny;
      velocity := new Vec2[nx, ny]((_, _) => Vec2(0.0, 0.0));
      fgh := new Vec2[nx, ny]((_, _) => Vec2(0.0, 0.0));
      k := new real[nx, ny]((_, _) => 0.0);
      eps := new real[nx, ny]((_, _) => 0.0);
      nuT := new real[nx, ny]((_, _) => 0.0);
    }
  }

  class FlowField3D {
    const nx: nat
    const ny: nat
    const nz: nat
    const velocity: array3<Vec3>
    const fgh: array3<Vec3>
    const flags: array3<bv32>
    const k: array3<real>
    const eps: array3<real>
    const nuT: array3<real>

    ghost predicate Valid() {
      velocity.Length0 == nx && velocity.Length1 == ny && velocity.Length2 == nz &&
      fgh.Length0 == nx && fgh.Length1 == ny && fgh.Length2 == nz &&
      flags.Length0 == nx && flags.Length1 == ny && flags.Length2 == nz &&
      k.Length0 == nx && k.Length1 == ny && k.Length2 == nz &&
      eps.Length0 == nx && eps.Length1 == ny && eps.Length2 == nz &&
      nuT.Length0 == nx && nuT.Length1 == ny && nuT.Length2 == nz &&
      velocity != fgh && k != eps && k != nuT && eps != nuT &&
      flags as object != fgh && flags as object != velocity
    }

    constructor (nx: nat, ny: nat, nz: nat)
      ensures Valid() && this.nx == nx && this.ny == ny && this.nz == nz
      ensures fresh(velocity) && fresh(fgh) && fresh(flags) && fresh(k) && fresh(eps) && fresh(nuT)
    {
      this.nx, this.ny, this.nz := nx, ny, nz;
      velocity := new Vec3[nx, ny, nz]((_, _, _) => Vec3(0.0, 0.0, 0.0));
      fgh := new Vec3[nx, ny, nz]((_, _, _) => Vec3(0.0, 0.0, 0.0));
      flags := new bv32[nx, ny, nz]((_, _, _) => 0);
      k := new real[nx, ny, nz]((_, _, _) => 0.0);
      eps := new real[nx, ny, nz]((_, _, _) => 0.0);
      nuT := new real[nx, ny, nz]((_, _, _) => 0.0);
    }
  }

  /** Every element of `a` other than (i, j) is as it was. */
  twostate predicate OthersUnchanged2D<T>(a: array2<T>, i: int, j: int)
    reads a
  {
    forall x, y :: 0 <= x < a.Length0 && 0 <= y < a.Length1 && (x != i || y != j) ==>
      a[x, y] == old(a[x, y])
  }

  /** Every element of `a` other than (i, j, k) is as it was. */
  twostate predicate OthersUnchanged3D<T>(a: array3<T>, i: int, j: int, k: int)
    reads a
  {
    forall x, y, z ::
      0 <= x < a.Length0 && 0 <= y < a.Length1 && 0 <= z < a.Length2 && (x != i || y != j || z != k) ==>
        a[x, y, z] == old(a[x, y, z])
  }
}
