/** Wire-level types of the D-Bus signatures that the agent's callbacks and the
    startup calls use: 'q' (uint16), 'u' (uint32), 'b' (boolean), 'o' (object path)
    and 's' (string). Object paths are not validated anywhere: the daemon is trusted. */
module DBusTypes {

  /** D-Bus signature 'q'. */
  newtype u16 = x: int | 0 <= x < 0x1_0000

  /** D-Bus signature 'u'. */
  newtype u32 = x: int | 0 <= x < 0x1_0000_0000

  /** D-Bus signature 'o'; any string, since paths are passed through unchecked. */
  type ObjectPath = string

  /** The two variant values the agent puts on the bus: Variant('u', ...) and Variant('b', ...). */
  datatype Variant = UInt32(u: u32) | Boolean(b: bool)

  datatype Option<+T> = None | Some(value: T)
}
