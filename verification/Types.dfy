/** The entities shared by scheduler, coordinator and workers. */
module Types {
  type DeviceId = string

  type RequestId = nat

  /** A contiguous layer range, 1-based and inclusive on both ends. */
  datatype StageKey = StageKey(start: nat, end: nat)

  /** A layer range and the device that serves it. */
  datatype Stage = Stage(start: nat, end: nat, device: DeviceId) {
    function Key(): StageKey {
      StageKey(start, end)
    }
  }

  /** Ordered pipeline: the first stage runs first. */
  type Placement = seq<Stage>

  /** R(j) = k: device k is the backup of device j. */
  type RecoveryTable = map<DeviceId, DeviceId>
}
