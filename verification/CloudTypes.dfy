/** What the driver knows about disks, snapshots and virtual machines in the cloud. */
module CloudTypes {
  import opened Capacity
  import opened Wrappers

  type Id = string

  datatype DiskStatus =
    | Creating
    | InUse
    | Available
    | Changing
    | Attaching
    | Detaching
    | Deleting
    | Recycled
    | Failed
    | SnapshotCreating
    | RollingBack

  datatype SnapStatus = SnapCreating | SnapAvailable | SnapFailed | SnapRollingBack | SnapDeleting

  /** `origin` is the snapshot whose data the disk was made with; the driver never reads it. */
  datatype Disk = Disk(
    id: Id, name: string, size: int64, typ: int, status: DiskStatus, zone: string,
    serial: string, instance: Id, snapshotAbility: bool, group: string, origin: Option<Id>)

  datatype Snap = Snap(
    id: Id, name: string, status: SnapStatus, src: Id, diskAbility: bool, zone: string, group: string)

  const VM_STATUS_RUNNING := "RUNNING"

  const INVALID_VOLUME_TYPE := -1
  const BASIC_VOLUME_TYPE := 1
  const STANDARD_VOLUME_TYPE := 2
  const DEFAULT_VOLUME_TYPE := STANDARD_VOLUME_TYPE

  predicate IsValidVolumeType(typ: int) {
    typ == BASIC_VOLUME_TYPE || typ == STANDARD_VOLUME_TYPE
  }

  type VolumeType = t: int | t == BASIC_VOLUME_TYPE || t == STANDARD_VOLUME_TYPE witness BASIC_VOLUME_TYPE

  /** The disk category the cloud API uses for a volume type; empty for an unknown type. */
  function TypeToString(typ: int): string {
    if typ == BASIC_VOLUME_TYPE then "Basic NVMe SSD"
    else if typ == STANDARD_VOLUME_TYPE then "Standard NVMe SSD"
    else ""
  }

  function StringToType(s: string): int {
    if s == "Basic NVMe SSD" then BASIC_VOLUME_TYPE
    else if s == "Standard NVMe SSD" then STANDARD_VOLUME_TYPE
    else INVALID_VOLUME_TYPE
  }

  /** A type the driver asks for is the type it reads back from the created disk. */
  lemma TypeNameRoundTrip(typ: int)
    ensures StringToType(TypeToString(typ)) == typ <==> IsValidVolumeType(typ) || typ == INVALID_VOLUME_TYPE
  {
    assert "Basic NVMe SSD"[0] != "Standard NVMe SSD"[0];
  }
}
