/** The storage collaborator, as the scripted fake of the data-store interface
    that the tests configure: each call is answered with the reply scripted for
    exactly that call and its arguments, and every call is logged together with
    its reply. */
module Store {
  import opened Model

  /** One call of the storage interface, with the arguments it received. */
  datatype Call =
    | Ping
    | ProvisionTenant(tenantID: string)
    | ProvisionDevice(tenantID: string, deviceID: string)
    | DeleteDevice(tenantID: string, deviceID: string)
    | GetDevice(tenantID: string, deviceID: string)
    | UpdateDeviceStatus(tenantID: string, deviceID: string, status: string)
    | UpsertSession(tenantID: string, userID: string, deviceID: string)
    | UpdateSessionStatus(tenantID: string, sessionID: string, status: string)

  /** The values a call returns: the device (GetDevice only), the session
      (UpsertSession only) and the error. None stands for nil. */
  datatype Reply = Reply(device: Option<Device>, session: Option<Session>, err: Option<Error>)

  const NilReply := Reply(None, None, None)

  datatype Exchange = Exchange(call: Call, reply: Reply)

  class DataStore {
    /** Scripted replies, one per expected call. */
    var script: map<Call, Reply>
    /** Every call received, with the reply it got, in order. */
    var log: seq<Exchange>

    constructor ()
      ensures script == map[] && log == []
    {
      script, log := map[], [];
    }

    /** The reply to c: the scripted one, or all nil for a call nobody scripted. */
    function Answer(c: Call): Reply
      reads this
    {
      if c in script then script[c] else NilReply
    }

    /** Scripts the reply to c. */
    method On(c: Call, r: Reply)
      modifies this
      ensures script == old(script)[c := r]
      ensures log == old(log)
    {
      script := script[c := r];
    }

    method Respond(c: Call) returns (r: Reply)
      modifies this
      ensures r == Answer(c)
      ensures script == old(script)
      ensures log == old(log) + [Exchange(c, r)]
    {
      r := Answer(c);
      log := log + [Exchange(c, r)];
    }

    method Ping() returns (err: Option<Error>)
      modifies this
      ensures err == Answer(Call.Ping).err
      ensures script == old(script)
      ensures log == old(log) + [Exchange(Call.Ping, Answer(Call.Ping))]
    {
      var r := Respond(Call.Ping);
      err := r.err;
    }

    method ProvisionTenant(tenantID: string) returns (err: Option<Error>)
      modifies this
      ensures err == Answer(Call.ProvisionTenant(tenantID)).err
      ensures script == old(script)
      ensures log == old(log) + [Exchange(Call.ProvisionTenant(tenantID), Answer(Call.ProvisionTenant(tenantID)))]
    {
      var r := Respond(Call.ProvisionTenant(tenantID));
      err := r.err;
    }

    method ProvisionDevice(tenantID: string, deviceID: string) returns (err: Option<Error>)
      modifies this
      ensures err == Answer(Call.ProvisionDevice(tenantID, deviceID)).err
      ensures script == old(script)
      ensures log == old(log) + [Exchange(Call.ProvisionDevice(tenantID, deviceID), Answer(Call.ProvisionDevice(tenantID, deviceID)))]
    {
      var r := Respond(Call.ProvisionDevice(tenantID, deviceID));
      err := r.err;
    }

    method DeleteDevice(tenantID: string, deviceID: string) returns (err: Option<Error>)
      modifies this
      ensures err == Answer(Call.DeleteDevice(tenantID, deviceID)).err
      ensures script == old(script)
      ensures log == old(log) + [Exchange(Call.DeleteDevice(tenantID, deviceID), Answer(Call.DeleteDevice(tenantID, deviceID)))]
    {
      var r := Respond(Call.DeleteDevice(tenantID, deviceID));
      err := r.err;
    }

    method GetDevice(tenantID: string, deviceID: string) returns (device: Option<Device>, err: Option<Error>)
      modifies this
      ensures device == Answer(Call.GetDevice(tenantID, deviceID)).device
      ensures err == Answer(Call.GetDevice(tenantID, deviceID)).err
      ensures script == old(script)
      ensures log == old(log) + [Exchange(Call.GetDevice(tenantID, deviceID), Answer(Call.GetDevice(tenantID, deviceID)))]
    {
      var r := Respond(Call.GetDevice(tenantID, deviceID));
      device, err := r.device, r.err;
    }

    method UpdateDeviceStatus(tenantID: string, deviceID: string, status: string) returns (err: Option<Error>)
      modifies this
      ensures err == Answer(Call.UpdateDeviceStatus(tenantID, deviceID, status)).err
      ensures script == old(script)
      ensures log == old(log) + [Exchange(Call.UpdateDeviceStatus(tenantID, deviceID, status), Answer(Call.UpdateDeviceStatus(tenantID, deviceID, status)))]
    {
      var r := Respond(Call.UpdateDeviceStatus(tenantID, deviceID, status));
      err := r.err;
    }

    method UpsertSession(tenantID: string, userID: string, deviceID: string) returns (session: Option<Session>, err: Option<Error>)
      modifies this
      ensures session == Answer(Call.UpsertSession(tenantID, userID, deviceID)).session
      ensures err == Answer(Call.UpsertSession(tenantID, userID, deviceID)).err
      ensures script == old(script)
      ensures log == old(log) + [Exchange(Call.UpsertSession(tenantID, userID, deviceID), Answer(Call.UpsertSession(tenantID, userID, deviceID)))]
    {
      var r := Respond(Call.UpsertSession(tenantID, userID, deviceID));
      session, err := r.session, r.err;
    }

    method UpdateSessionStatus(tenantID: string, sessionID: string, status: string) returns (err: Option<Error>)
      modifies this
      ensures err == Answer(Call.UpdateSessionStatus(tenantID, sessionID, status)).err
      ensures script == old(script)
      ensures log == old(log) + [Exchange(Call.UpdateSessionStatus(tenantID, sessionID, status), Answer(Call.UpdateSessionStatus(tenantID, sessionID, status)))]
    {
      var r := Respond(Call.UpdateSessionStatus(tenantID, sessionID, status));
      err := r.err;
    }
  }
}
