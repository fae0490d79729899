/** The values the device-connect facade passes around: errors, devices,
    sessions, tenants and relayed messages. */
module Model {

  /** Go's nilable values: None stands for nil. */
  datatype Option<+T> = None | Some(value: T)

  datatype Result<+T, +E> = Success(value: T) | Failure(error: E)

  /** An error as the facade returns it: either an opaque error produced by a
      collaborator (the store or the broker client), passed on untouched, or one
      of the two sentinels the facade defines itself. */
  datatype Error =
    | Opaque(text: string)
    | ErrDeviceNotFound
    | ErrDeviceNotConnected

  datatype DeviceStatus = Connected | Disconnected | Unknown

  datatype Device = Device(id: string, status: DeviceStatus)

  datatype SessionStatus = SessionConnected | SessionDisconnected

  datatype Session = Session(id: string, userID: string, deviceID: string, status: SessionStatus)

  datatype Tenant = Tenant(tenantID: string)

  newtype byte = x: int | 0 <= x < 256

  /** A relayed message: a type tag and an opaque binary payload. */
  datatype Message = Message(msgType: string, data: seq<byte>)
}
