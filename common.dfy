/** Value types shared by the three managers. */
module Common {

  datatype Option<+T> = None | Some(value: T)

  /** UnityEngine.Vector2 and Vector3, with the engine's single-precision floats read as reals. */
  datatype Vec2 = Vec2(x: real, y: real)
  datatype Vec3 = Vec3(x: real, y: real, z: real)

  /** Enums.GameStates. The managers only ever name `Idle`; every other value is kept by its ordinal. */
  datatype GameStates = Idle | Other(ordinal: nat)

  /** Enums.PlayerAnimationTypes. The manager only ever names `Idle`; every other value is kept by its ordinal. */
  datatype PlayerAnimationTypes = IdleAnimation | OtherAnimation(ordinal: nat)

  /** `n` copies of `x`. */
  function Repeat<T>(x: T, n: nat): (r: seq<T>)
    ensures |r| == n
    ensures forall i :: 0 <= i < n ==> r[i] == x
  {
    if n == 0 then [] else Repeat(x, n - 1) + [x]
  }
}
