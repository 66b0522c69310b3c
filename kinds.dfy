/**
 * The small enumerations of the controller: controller type, key type,
 * stick position (a flag enum: bindings combine a stick with Move or Rot)
 * and vector component.
 */
module Kinds {

  datatype ConType = Default | Xinput | Direct | Switch | Android | Other

  /**
   * KeyType. `Unbound` is the source's `Other` (0), renamed because ConType
   * has an `Other` too: UpdateButton's default branch reads it as a plain
   * key, without the keyboard-player or joystick guards of Key and JoyKey.
   */
  datatype KeyType = Key | JoyKey | Axis | JoyAxis | Unbound

  /** PosType values are dictionary keys, so they are integers; the flag test converts to bits. */
  newtype PosType = x: int | 0 <= x < 256

  /** `(pos & flag) == flag`. */
  predicate HasFlag(pos: PosType, flag: PosType)
  {
    (pos as bv8) & (flag as bv8) == flag as bv8
  }

  const PosNone: PosType := 0
  const PosLeft: PosType := 1
  const PosRight: PosType := 2
  const PosCenter: PosType := 4
  const PosMove: PosType := 16
  const PosRot: PosType := 32
  const PosLeftMove: PosType := 17
  const PosRightRot: PosType := 34

  datatype PointType = PointX | PointY | PointZ

  datatype Option<T> = None | Some(value: T)
}
