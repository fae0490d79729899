/** The DeviceConnectApp facade: health check and provisioning passthroughs to
    the store, device lookup, the session-preparation gate, and message relay
    through the broker client on direction-specific subjects. */
module App {
  import opened Model
  import Codec
  import Stream
  import Nats
  import opened Store

  const DirectionDevice := "device"
  const DirectionManagement := "management"

  /** The subject a message for (tenant, device, direction) is published and
      subscribed on. */
  function MessageSubject(tenantID: string, deviceID: string, direction: string): Nats.Subject
  {
    Nats.Subject(tenantID, deviceID, direction)
  }

  /** Same triple, same subject; different triples, different subjects. This
      holds by construction of Nats.Subject, which is the triple itself. */
  lemma MessageSubjectInjective(t1: string, d1: string, x1: string, t2: string, d2: string, x2: string)
    ensures MessageSubject(t1, d1, x1) == MessageSubject(t2, d2, x2) <==> (t1, d1, x1) == (t2, d2, x2)
  {
  }

  /** Device-authored and management-authored traffic of one device never share
      a subject (by construction of Nats.Subject). */
  lemma DirectionsSeparate(tenantID: string, deviceID: string)
    ensures MessageSubject(tenantID, deviceID, DirectionDevice) != MessageSubject(tenantID, deviceID, DirectionManagement)
  {
  }

  /** What a device lookup means to the facade: the store's error wins, a nil
      device without an error is ErrDeviceNotFound, anything else is the
      device. */
  function LookupOutcome(lookup: Reply): Result<Device, Error>
  {
    if lookup.err.Some? then Failure(lookup.err.value)
    else if lookup.device.None? then Failure(ErrDeviceNotFound)
    else Success(lookup.device.value)
  }

  /** The lookup reply lets a session be written: a device was found and is
      connected. */
  predicate AdmitsSession(lookup: Reply)
  {
    LookupOutcome(lookup).Success? && LookupOutcome(lookup).value.status == Connected
  }

  /** The (session, error) that session preparation returns, given the store's
      reply to the device lookup and (consulted only when the gate admits) its
      reply to the session upsert. */
  function PrepareOutcome(lookup: Reply, upsert: Reply): (Option<Session>, Option<Error>)
  {
    match LookupOutcome(lookup)
    case Failure(e) => (None, Some(e))
    case Success(device) =>
      if device.status != Connected then (None, Some(ErrDeviceNotConnected))
      else (upsert.session, upsert.err)
  }

  lemma LookupOutcomeCases(lookup: Reply)
    ensures lookup.err.Some? ==> LookupOutcome(lookup) == Failure(lookup.err.value)
    ensures lookup.err.None? && lookup.device.None? ==> LookupOutcome(lookup) == Failure(ErrDeviceNotFound)
    ensures lookup.err.None? && lookup.device.Some? ==> LookupOutcome(lookup) == Success(lookup.device.value)
  {
  }

  /** Session preparation fails exactly as device lookup does, whenever the
      lookup fails. */
  lemma PrepareAgreesWithLookup(lookup: Reply, upsert: Reply)
    ensures LookupOutcome(lookup).Failure? ==> PrepareOutcome(lookup, upsert) == (None, Some(LookupOutcome(lookup).error))
  {
  }

  lemma PrepareOutcomeCases(lookup: Reply, upsert: Reply)
    ensures lookup.err.Some? ==> PrepareOutcome(lookup, upsert) == (None, lookup.err)
    ensures lookup.err.None? && lookup.device.None? ==> PrepareOutcome(lookup, upsert) == (None, Some(ErrDeviceNotFound))
    ensures lookup.err.None? && lookup.device.Some? && lookup.device.value.status != Connected ==>
              PrepareOutcome(lookup, upsert) == (None, Some(ErrDeviceNotConnected))
    ensures AdmitsSession(lookup) ==> PrepareOutcome(lookup, upsert) == (upsert.session, upsert.err)
  {
  }

  /** Without an admitting lookup no session comes back, whatever the upsert
      would have answered; with one, the upsert's reply decides everything. */
  lemma PrepareDependsOnUpsertOnlyWhenAdmitted(lookup: Reply, upsert1: Reply, upsert2: Reply)
    ensures !AdmitsSession(lookup) ==> PrepareOutcome(lookup, upsert1) == PrepareOutcome(lookup, upsert2)
    ensures !AdmitsSession(lookup) ==> PrepareOutcome(lookup, upsert1).0 == None
  {
  }

  /** The upsert at position i of a store log was admitted by the exchange just
      before it: a lookup of the same tenant and device that found the device
      connected. */
  ghost predicate AdmittedAt(log: seq<Exchange>, i: int)
    requires 0 <= i < |log| && log[i].call.UpsertSession?
  {
    0 < i
    && log[i - 1].call == GetDevice(log[i].call.tenantID, log[i].call.deviceID)
    && AdmitsSession(log[i - 1].reply)
  }

  /** No session is written unless the device was just found connected. */
  ghost predicate WritesGated(log: seq<Exchange>)
  {
    forall i :: 0 <= i < |log| && log[i].call.UpsertSession? ==> AdmittedAt(log, i)
  }

  lemma GatedAfterRead(log: seq<Exchange>, e: Exchange)
    requires WritesGated(log)
    requires !e.call.UpsertSession?
    ensures WritesGated(log + [e])
  {
    var log' := log + [e];
    forall i | 0 <= i < |log'| && log'[i].call.UpsertSession?
      ensures AdmittedAt(log', i)
    {
      assert i < |log|;
      assert AdmittedAt(log, i);
    }
  }

  lemma GatedAfterAdmittedWrite(log: seq<Exchange>, lookup: Exchange, upsert: Exchange)
    requires WritesGated(log)
    requires upsert.call.UpsertSession?
    requires lookup.call == GetDevice(upsert.call.tenantID, upsert.call.deviceID)
    requires AdmitsSession(lookup.reply)
    ensures WritesGated(log + [lookup, upsert])
  {
    var log' := log + [lookup, upsert];
    forall i | 0 <= i < |log'| && log'[i].call.UpsertSession?
      ensures AdmittedAt(log', i)
    {
      if i < |log| {
        assert AdmittedAt(log, i);
      } else {
        assert i == |log| + 1;
      }
    }
  }

  class DeviceConnectApp {
    const store: DataStore?
    const client: Nats.Client?

    constructor (store: DataStore?, client: Nats.Client?)
      ensures this.store == store && this.client == client
    {
      this.store := store;
      this.client := client;
    }

    method HealthCheck() returns (err: Option<Error>)
      requires store != null
      modifies store
      ensures err == store.Answer(Call.Ping).err
      ensures store.script == old(store.script)
      ensures store.log == old(store.log) + [Exchange(Call.Ping, store.Answer(Call.Ping))]
      ensures WritesGated(old(store.log)) ==> WritesGated(store.log)
    {
      err := store.Ping();
      if WritesGated(old(store.log)) {
        GatedAfterRead(old(store.log), store.log[|store.log| - 1]);
      }
    }

    /** Forwards the tenant's identifier, not the tenant record. */
    method ProvisionTenant(tenant: Tenant) returns (err: Option<Error>)
      requires store != null
      modifies store
      ensures err == store.Answer(Call.ProvisionTenant(tenant.tenantID)).err
      ensures store.script == old(store.script)
      ensures store.log == old(store.log) + [Exchange(Call.ProvisionTenant(tenant.tenantID), store.Answer(Call.ProvisionTenant(tenant.tenantID)))]
      ensures WritesGated(old(store.log)) ==> WritesGated(store.log)
    {
      err := store.ProvisionTenant(tenant.tenantID);
      if WritesGated(old(store.log)) {
        GatedAfterRead(old(store.log), store.log[|store.log| - 1]);
      }
    }

    /** Forwards the device's identifier, not the device record. */
    method ProvisionDevice(tenantID: string, device: Device) returns (err: Option<Error>)
      requires store != null
      modifies store
      ensures err == store.Answer(Call.ProvisionDevice(tenantID, device.id)).err
      ensures store.script == old(store.script)
      ensures store.log == old(store.log) + [Exchange(Call.ProvisionDevice(tenantID, device.id), store.Answer(Call.ProvisionDevice(tenantID, device.id)))]
      ensures WritesGated(old(store.log)) ==> WritesGated(store.log)
    {
      err := store.ProvisionDevice(tenantID, device.id);
      if WritesGated(old(store.log)) {
        GatedAfterRead(old(store.log), store.log[|store.log| - 1]);
      }
    }

    method DeleteDevice(tenantID: string, deviceID: string) returns (err: Option<Error>)
      requires store != null
      modifies store
      ensures err == store.Answer(Call.DeleteDevice(tenantID, deviceID)).err
      ensures store.script == old(store.script)
      ensures store.log == old(store.log) + [Exchange(Call.DeleteDevice(tenantID, deviceID), store.Answer(Call.DeleteDevice(tenantID, deviceID)))]
      ensures WritesGated(old(store.log)) ==> WritesGated(store.log)
    {
      err := store.DeleteDevice(tenantID, deviceID);
      if WritesGated(old(store.log)) {
        GatedAfterRead(old(store.log), store.log[|store.log| - 1]);
      }
    }

    method GetDevice(tenantID: string, deviceID: string) returns (device: Option<Device>, err: Option<Error>)
      requires store != null
      modifies store
      ensures var outcome := LookupOutcome(store.Answer(Call.GetDevice(tenantID, deviceID)));
              && (outcome.Success? ==> device == Some(outcome.value) && err == None)
              && (outcome.Failure? ==> device == None && err == Some(outcome.error))
      ensures store.script == old(store.script)
      ensures store.log == old(store.log) + [Exchange(Call.GetDevice(tenantID, deviceID), store.Answer(Call.GetDevice(tenantID, deviceID)))]
      ensures WritesGated(old(store.log)) ==> WritesGated(store.log)
    {
      var found, lookupErr := store.GetDevice(tenantID, deviceID);
      if WritesGated(old(store.log)) {
        GatedAfterRead(old(store.log), store.log[|store.log| - 1]);
      }
      if lookupErr.Some? {
        return None, lookupErr;
      }
      if found.None? {
        return None, Some(ErrDeviceNotFound);
      }
      device, err := found, None;
    }

    method UpdateDeviceStatus(tenantID: string, deviceID: string, status: string) returns (err: Option<Error>)
      requires store != null
      modifies store
      ensures err == store.Answer(Call.UpdateDeviceStatus(tenantID, deviceID, status)).err
      ensures store.script == old(store.script)
      ensures store.log == old(store.log) + [Exchange(Call.UpdateDeviceStatus(tenantID, deviceID, status), store.Answer(Call.UpdateDeviceStatus(tenantID, deviceID, status)))]
      ensures WritesGated(old(store.log)) ==> WritesGated(store.log)
    {
      err := store.UpdateDeviceStatus(tenantID, deviceID, status);
      if WritesGated(old(store.log)) {
        GatedAfterRead(old(store.log), store.log[|store.log| - 1]);
      }
    }

    /** The session gate: look the device up, refuse unless it is found and
        connected, and only then upsert the session, returning the upsert's
        session and error as they come. */
    method PrepareUserSession(tenantID: string, userID: string, deviceID: string) returns (session: Option<Session>, err: Option<Error>)
      requires store != null
      modifies store
      ensures (session, err) == PrepareOutcome(store.Answer(Call.GetDevice(tenantID, deviceID)),
                                               store.Answer(Call.UpsertSession(tenantID, userID, deviceID)))
      ensures store.script == old(store.script)
      ensures var lookup := Exchange(Call.GetDevice(tenantID, deviceID), store.Answer(Call.GetDevice(tenantID, deviceID)));
              var upsert := Exchange(Call.UpsertSession(tenantID, userID, deviceID), store.Answer(Call.UpsertSession(tenantID, userID, deviceID)));
              store.log == old(store.log) + (if AdmitsSession(lookup.reply) then [lookup, upsert] else [lookup])
      ensures WritesGated(old(store.log)) ==> WritesGated(store.log)
    {
      var device, lookupErr := store.GetDevice(tenantID, deviceID);
      ghost var afterLookup := store.log;
      if WritesGated(old(store.log)) {
        GatedAfterRead(old(store.log), afterLookup[|afterLookup| - 1]);
      }
      if lookupErr.Some? {
        return None, lookupErr;
      }
      if device.None? {
        return None, Some(ErrDeviceNotFound);
      }
      if device.value.status != Connected {
        return None, Some(ErrDeviceNotConnected);
      }
      session, err := store.UpsertSession(tenantID, userID, deviceID);
      if WritesGated(old(store.log)) {
        GatedAfterAdmittedWrite(old(store.log), afterLookup[|afterLookup| - 1], store.log[|store.log| - 1]);
      }
    }

    method UpdateUserSessionStatus(tenantID: string, sessionID: string, status: string) returns (err: Option<Error>)
      requires store != null
      modifies store
      ensures err == store.Answer(Call.UpdateSessionStatus(tenantID, sessionID, status)).err
      ensures store.script == old(store.script)
      ensures store.log == old(store.log) + [Exchange(Call.UpdateSessionStatus(tenantID, sessionID, status), store.Answer(Call.UpdateSessionStatus(tenantID, sessionID, status)))]
      ensures WritesGated(old(store.log)) ==> WritesGated(store.log)
    {
      err := store.UpdateSessionStatus(tenantID, sessionID, status);
      if WritesGated(old(store.log)) {
        GatedAfterRead(old(store.log), store.log[|store.log| - 1]);
      }
    }

    /** Publishes the encoded message once on the subject of direction; the
        client's error is returned as it comes. */
    method PublishMessage(tenantID: string, deviceID: string, direction: string, message: Message) returns (err: Option<Error>)
      requires client != null
      modifies client
      ensures client.published == old(client.published) + [Nats.Publication(MessageSubject(tenantID, deviceID, direction), Codec.Encode(message))]
      ensures Codec.Decode(client.published[|client.published| - 1].data) == Success(message)
      ensures err == client.publishErr
      ensures client.subscriptions == old(client.subscriptions)
      ensures client.publishErr == old(client.publishErr) && client.subscribeErr == old(client.subscribeErr)
      ensures client.deliveries == old(client.deliveries)
    {
      var data := Codec.Encode(message);
      Codec.RoundTrip(message);
      err := client.Publish(MessageSubject(tenantID, deviceID, direction), data);
    }

    method PublishMessageFromDevice(tenantID: string, deviceID: string, message: Message) returns (err: Option<Error>)
      requires client != null
      modifies client
      ensures client.published == old(client.published) + [Nats.Publication(MessageSubject(tenantID, deviceID, DirectionDevice), Codec.Encode(message))]
      ensures Codec.Decode(client.published[|client.published| - 1].data) == Success(message)
      ensures err == client.publishErr
      ensures client.subscriptions == old(client.subscriptions)
      ensures client.publishErr == old(client.publishErr) && client.subscribeErr == old(client.subscribeErr)
      ensures client.deliveries == old(client.deliveries)
    {
      err := PublishMessage(tenantID, deviceID, DirectionDevice, message);
    }

    method PublishMessageFromManagement(tenantID: string, deviceID: string, message: Message) returns (err: Option<Error>)
      requires client != null
      modifies client
      ensures client.published == old(client.published) + [Nats.Publication(MessageSubject(tenantID, deviceID, DirectionManagement), Codec.Encode(message))]
      ensures Codec.Decode(client.published[|client.published| - 1].data) == Success(message)
      ensures err == client.publishErr
      ensures client.subscriptions == old(client.subscriptions)
      ensures client.publishErr == old(client.publishErr) && client.subscribeErr == old(client.subscribeErr)
      ensures client.deliveries == old(client.deliveries)
    {
      err := PublishMessage(tenantID, deviceID, DirectionManagement, message);
    }

    /** Subscribes on the subject of direction with a fresh stream as the
        delivery sink. On success the stream is returned holding the decoded
        deliveries so far, in order; on failure no stream is returned. */
    method SubscribeMessages(tenantID: string, deviceID: string, direction: string) returns (out: Stream.MessageStream?, err: Option<Error>)
      requires client != null
      modifies client
      ensures client.subscriptions == old(client.subscriptions) + [MessageSubject(tenantID, deviceID, direction)]
      ensures err == client.subscribeErr
      ensures err == None ==> out != null && fresh(out) && out.queue == Stream.Decoded(client.PendingFor(MessageSubject(tenantID, deviceID, direction)))
      ensures err != None ==> out == null
      ensures client.published == old(client.published)
      ensures client.publishErr == old(client.publishErr) && client.subscribeErr == old(client.subscribeErr)
      ensures client.deliveries == old(client.deliveries)
    {
      var sink := new Stream.MessageStream();
      err := client.Subscribe(MessageSubject(tenantID, deviceID, direction), sink);
      out := if err == None then sink else null;
    }

    method SubscribeMessagesFromDevice(tenantID: string, deviceID: string) returns (out: Stream.MessageStream?, err: Option<Error>)
      requires client != null
      modifies client
      ensures client.subscriptions == old(client.subscriptions) + [MessageSubject(tenantID, deviceID, DirectionDevice)]
      ensures err == client.subscribeErr
      ensures err == None ==> out != null && fresh(out) && out.queue == Stream.Decoded(client.PendingFor(MessageSubject(tenantID, deviceID, DirectionDevice)))
      ensures err != None ==> out == null
      ensures client.published == old(client.published)
      ensures client.publishErr == old(client.publishErr) && client.subscribeErr == old(client.subscribeErr)
      ensures client.deliveries == old(client.deliveries)
    {
      out, err := SubscribeMessages(tenantID, deviceID, DirectionDevice);
    }

    method SubscribeMessagesFromManagement(tenantID: string, deviceID: string) returns (out: Stream.MessageStream?, err: Option<Error>)
      requires client != null
      modifies client
      ensures client.subscriptions == old(client.subscriptions) + [MessageSubject(tenantID, deviceID, DirectionManagement)]
      ensures err == client.subscribeErr
      ensures err == None ==> out != null && fresh(out) && out.queue == Stream.Decoded(client.PendingFor(MessageSubject(tenantID, deviceID, DirectionManagement)))
      ensures err != None ==> out == null
      ensures client.published == old(client.published)
      ensures client.publishErr == old(client.publishErr) && client.subscribeErr == old(client.subscribeErr)
      ensures client.deliveries == old(client.deliveries)
    {
      out, err := SubscribeMessages(tenantID, deviceID, DirectionManagement);
    }
  }
}
