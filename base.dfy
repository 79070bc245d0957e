/** Small value types shared by the modules of this model. */
module Base {

  datatype Option<+T> = None | Some(value: T)

  /** A point or vector in 3D. The source's `vec3d` holds doubles; here the
      coordinates are exact reals. */
  datatype Vec3 = Vec3(x: real, y: real, z: real)

  /** True when `s` starts with `p`. */
  predicate IsPrefix<T(==)>(p: seq<T>, s: seq<T>)
  {
    |p| <= |s| && s[..|p|] == p
  }
}
