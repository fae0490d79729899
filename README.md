# deviceconnect application facade, modelled in Dafny

This project models `DeviceConnectApp`, the application facade of the
deviceconnect service. The facade sits between the API layer, a data store,
and a NATS broker client. It offers:

- a health check;
- tenant and device provisioning, device deletion and device-status updates,
  all passed through to the store;
- device lookup, which turns "not found" into `ErrDeviceNotFound`;
- the session-preparation gate, which upserts a user session only for a
  device that is found and connected;
- publishing and subscribing to messages on subjects that depend on the
  direction: `"device"` traffic or `"management"` traffic.

The facade's implementation file `app/app.go` is not part of this model. Its
behaviour is taken from `app/app_test.go`: the tests script the store and the
broker client, call the facade, and check what it returns and which calls it
made. The model follows that shape:

- `model.dfy` (module `Model`): errors (an opaque collaborator error or one of
  the sentinels `ErrDeviceNotFound` and `ErrDeviceNotConnected`), devices,
  sessions, tenants and messages. Go's `nil` is `None`.
- `store.dfy` (module `Store`): the scripted data store (`DataStore`). `On`
  scripts the reply to one call with its exact arguments. Every call is logged
  with the reply it got, so "UpsertSession was never called" can be stated
  directly from the log.
- `nats.dfy` (module `Nats`): subjects and the scripted broker client
  (`Client`). It logs publishes and subscriptions. On a successful subscribe it
  hands the new subscription's callback the payloads scripted for that subject,
  in order, as the test's mock does.
- `stream.dfy` (module `Stream`): the channel the facade returns from a
  subscribe, modelled as a FIFO queue. `Deliver` is the delivery callback: it
  decodes the payload and enqueues the message, or drops the payload when it
  does not decode. `Receive` takes the oldest message.
- `codec.dfy` (module `Codec`): a byte codec for messages, with a round-trip proof.
- `app.dfy` (module `App`): the facade. It also holds the pure decision
  functions `LookupOutcome` and `PrepareOutcome`, and the trace invariant
  `WritesGated`. `WritesGated` says every `UpsertSession` in the store's log
  comes right after a `GetDevice` of the same tenant and device that found the
  device connected. Every facade method preserves it.
- `scenarios.dfy` (module `Scenarios`): each test of `app/app_test.go`
  replayed as a method. It scripts the fakes as the test does and asserts what
  the test asserts. The methods are verified, not executed.

## Model

| member | source | states |
|---|---|---|
| `App.DeviceConnectApp.constructor` | app/app_test.go:42 | the facade keeps the store and broker client it is built with; either may be nil |
| `App.DeviceConnectApp.HealthCheck` | app/app_test.go:32-49 | pings the store once and returns exactly the store's error, nil included |
| `App.DeviceConnectApp.ProvisionTenant` | app/app_test.go:51-70 | forwards the tenant's identifier (not the tenant record) to the store once and returns the store's error unchanged |
| `App.DeviceConnectApp.ProvisionDevice` | app/app_test.go:72-93 | forwards the tenant identifier and the device's identifier (not the device record) once and returns the store's error unchanged |
| `App.DeviceConnectApp.DeleteDevice` | app/app_test.go:95-116 | forwards tenant and device identifiers once and returns the store's error unchanged |
| `App.DeviceConnectApp.GetDevice` | app/app_test.go:118-165 | one store lookup; a store error comes back unchanged with no device, a nil device with no error becomes `ErrDeviceNotFound`, and a found device comes back with no error |
| `App.DeviceConnectApp.UpdateDeviceStatus` | app/app_test.go:167-189 | forwards tenant, device and the status string once and returns the store's error unchanged |
| `App.DeviceConnectApp.PrepareUserSession` | app/app_test.go:191-290 | returns `PrepareOutcome` of the store's lookup and upsert replies; the store sees the lookup and, only when the lookup admits a session, exactly one `UpsertSession(tenant, user, device)`; `WritesGated` is preserved |
| `App.DeviceConnectApp.UpdateUserSessionStatus` | app/app_test.go:292-314 | forwards tenant, session identifier and status string once and returns the store's error unchanged |
| `App.DeviceConnectApp.PublishMessage` | app/app_test.go:316-376 | publishes once on the subject of (tenant, device, direction), with a payload that decodes back to the message, and returns the client's error unchanged; nothing else in the client changes |
| `App.DeviceConnectApp.PublishMessageFromDevice` | app/app_test.go:316-345 | the same, on the `"device"` subject |
| `App.DeviceConnectApp.PublishMessageFromManagement` | app/app_test.go:347-376 | the same, on the `"management"` subject |
| `App.DeviceConnectApp.SubscribeMessages` | app/app_test.go:378-444 | subscribes once on the subject of (tenant, device, direction); on success returns a fresh stream holding the decoded deliveries in order and no error; on failure returns no stream and the client's error |
| `App.DeviceConnectApp.SubscribeMessagesFromDevice` | app/app_test.go:378-410 | the same, on the `"device"` subject |
| `App.DeviceConnectApp.SubscribeMessagesFromManagement` | app/app_test.go:412-444 | the same, on the `"management"` subject |
| `App.LookupOutcomeCases` | app/app_test.go:127-162 | a lookup error is returned unchanged; (nil, nil) is `ErrDeviceNotFound`; a found device is the result |
| `App.PrepareOutcomeCases` | app/app_test.go:203-285 | the four outcomes of the gate: lookup error passed through with no session; no device gives `ErrDeviceNotFound`; a device not connected gives `ErrDeviceNotConnected`; a connected device gives the upsert's session and error verbatim |
| `App.PrepareAgreesWithLookup` | app/app_test.go:203-217 | whenever device lookup fails, session preparation fails with the same error and no session |
| `App.PrepareDependsOnUpsertOnlyWhenAdmitted` | app/app_test.go:269-285 | unless the lookup finds a connected device, the outcome does not depend on what an upsert would answer and carries no session |
| `App.GatedAfterRead` | app/app_test.go:269-287 | appending any store call other than an upsert keeps every upsert in the log admitted by a connected lookup |
| `App.GatedAfterAdmittedWrite` | app/app_test.go:269-287 | appending a connected lookup followed by an upsert of the same tenant and device keeps every upsert in the log admitted |
| `App.MessageSubjectInjective` | app/app_test.go:320-351 | by construction of `Nats.Subject`, two subjects are equal exactly when their (tenant, device, direction) triples are |
| `App.DirectionsSeparate` | app/app_test.go:320-351 | by construction of `Nats.Subject`, the `"device"` and `"management"` subjects of one tenant and device differ |
| `Codec.RoundTrip` | app/app_test.go:330-334 | decoding the encoding of a message gives back exactly that message |
| `Codec.EncodeInjective` | app/app_test.go:393-395 | two messages have the same encoding exactly when they are equal |
| `Stream.DecodedAppend` | app/app_test.go:392-409 | deliveries in two runs put on the stream the first run's messages followed by the second's: nothing is reordered or lost |
| `Stream.DecodedEncodings` | app/app_test.go:392-409 | delivering the encodings of a list of messages puts exactly that list on the stream |
| `Stream.DecodedFromPayloads` | app/app_test.go:392-395 | every message on the stream decodes from some delivered payload |
| `Stream.MessageStream.Deliver` | app/app_test.go:392-395 | the delivery callback appends the decoded message, or drops a payload that does not decode |
| `Stream.MessageStream.Receive` | app/app_test.go:408-409 | receiving takes the oldest queued message |
| `Nats.Client.Publish` | app/app_test.go:327-338 | the fake client logs the publish with its subject and payload and returns its scripted error |
| `Nats.Client.Subscribe` | app/app_test.go:389-399 | the fake client logs the subscription, returns its scripted error and, on success, runs the callback on each payload scripted for the subject, in order |
| `Store.DataStore.On` | app/app_test.go:36-40 | scripts the reply to one call with its exact arguments |
| `Store.DataStore.Respond` | app/app_test.go:260-278 | answers a call with its scripted reply and logs the call with that reply |
| `Store.DataStore.Ping` | app/app_test.go:36-40 | logs the ping and returns its scripted error |
| `Store.DataStore.ProvisionTenant` | app/app_test.go:56-61 | logs the call with the tenant identifier and returns its scripted error |
| `Store.DataStore.ProvisionDevice` | app/app_test.go:78-84 | logs the call with tenant and device identifiers and returns its scripted error |
| `Store.DataStore.DeleteDevice` | app/app_test.go:101-107 | logs the call and returns its scripted error |
| `Store.DataStore.GetDevice` | app/app_test.go:127-149 | logs the call and returns its scripted (device, error) pair |
| `Store.DataStore.UpdateDeviceStatus` | app/app_test.go:173-180 | logs the call with the status string and returns its scripted error |
| `Store.DataStore.UpsertSession` | app/app_test.go:270-277 | logs the call with tenant, user and device and returns its scripted (session, error) pair |
| `Store.DataStore.UpdateSessionStatus` | app/app_test.go:298-305 | logs the call with tenant, session identifier and status string and returns its scripted error |

## Left out

- `app/app.go` is not part of this model. The facade's behaviour comes from what the tests pin down. `GetDevice` and `PrepareUserSession` check the store's error before the device when the store returns both. No test covers that case; the model uses Go's usual order.
- The message encoding is msgpack, a foreign library. `Codec` uses its own byte format and proves the property the tests rely on: decoding an encoding gives back the message. Its bytes are not msgpack's, and msgpack's permissive decoding (unknown fields, fields in any order, non-minimal headers) is not modelled. No property of the model depends on which other byte strings decode. Go strings are byte strings that msgpack round-trips even when they are not valid UTF-8; here the type tag is a sequence of Unicode scalar values, and only those are round-tripped. Go also tells a nil `[]byte` payload from an empty one, and msgpack keeps them apart; here both are the empty sequence. The `*model.Tenant`, `*model.Device` and `*model.Message` arguments of the facade are values here and cannot be nil; in Go a nil one would panic, or for the message be encoded as nil.
- Encoding failures (an error from msgpack's `Marshal`) are not modelled: `Codec.Encode` is total.
- The string form of a subject (`getMessageSubject`) is not shown, so `Nats.Subject` is a value built from the tenant, the device and the direction string. No string format is assumed. A string format such as `tenant.device.direction` could collide when identifiers contain dots. The model cannot speak to that.
- `context.Context`, deadlines and timeouts are left out: each call has one fixed outcome.
- Concurrency is left out. Delivery runs synchronously inside `Subscribe`, as the test's mock does. `Stream.MessageStream.Receive` returns `None` on an empty stream, where a Go channel receive would wait.
- Backpressure is left out: the stream's queue is unbounded.
- Unsubscribing, closing a stream, and leaks are left out; the tests do not exercise them.
- Store.DataStore.On: scripts a reply for one exact call. testify's `mock.AnythingOfType("string")` (app/app_test.go:179 and :304) matches any status string; here only the scripted string matches. Scripting the same call twice keeps the later reply here, where testify answers with the first match. No test tells these apart.
- testify's mock machinery is modelled only by its meaning: a call log and scripted replies. A call nobody scripted gets all-nil replies here, where testify would fail the test. `AssertExpectations` becomes assertions on the log in `scenarios.dfy`.
- Persistence, the NATS connection and the network are left out: the store and the broker client are the test fakes.
- A nil store or nil client is not modelled. The facade methods require the collaborator they use to be present; in Go a nil one would panic.
- The values of `model.TypeShell` and of the device/session status constants are not shown. Statuses are enumerations here. The shell type tag is a parameter of the relay scenarios.
- The test of `UpdateUserSessionStatus` passes a value named `deviceID` where the store takes a session identifier. The model names that parameter `sessionID`.
