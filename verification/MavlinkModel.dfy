/** Decoded MAVLink messages, as far as the vehicle-monitor pipeline looks into them. */
module MavlinkModel {
  import opened Prelude
  import opened SubmitterModel

  type Word = x: int | 0 <= x < 0x1_0000

  // MAV_STATE, the states the monitor distinguishes; any other byte may arrive as well.
  const UNINIT: Byte := 0
  const BOOT: Byte := 1
  const CALIBRATING: Byte := 2
  const STANDBY: Byte := 3
  const ACTIVE: Byte := 4
  const CRITICAL: Byte := 5
  const EMERGENCY: Byte := 6
  const POWEROFF: Byte := 7

  /** The mission type that marks an item as a waypoint (the numeric value of MAV_CMD_NAV_WAYPOINT). */
  const WAYPOINT: Byte := 16

  datatype Item = Item(seqNo: Word, missionType: Byte, x: real, y: real, z: real)

  datatype Body =
    | Heartbeat(status: Byte)
    | GlobalPosition(position: Position)
    | MissionClearAll
    | MissionCount(count: Word)
    | MissionItem(item: Item)
    | Other

  datatype Message = Message(sysid: Byte, body: Body)
}
