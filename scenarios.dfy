/** The facade's test cases replayed against the model: each method scripts
    the fakes as its test does, calls the facade, and asserts what the test
    asserts. */
module Scenarios {
  import opened Model
  import Codec
  import Stream
  import Nats
  import opened Store
  import opened App

  const TestError := Opaque("error")

  method TestHealthCheck()
  {
    var store := new DataStore();
    store.On(Call.Ping, Reply(None, None, Some(TestError)));
    var app := new DeviceConnectApp(store, null);
    var res := app.HealthCheck();
    assert res == Some(TestError);
    assert store.log == [Exchange(Call.Ping, Reply(None, None, Some(TestError)))];
  }

  method TestProvisionTenant()
  {
    var store := new DataStore();
    store.On(Call.ProvisionTenant("1234"), Reply(None, None, Some(TestError)));
    var app := new DeviceConnectApp(store, null);
    var res := app.ProvisionTenant(Tenant("1234"));
    assert res == Some(TestError);
  }

  method TestProvisionDevice()
  {
    var store := new DataStore();
    store.On(Call.ProvisionDevice("1234", "abcd"), Reply(None, None, Some(TestError)));
    var app := new DeviceConnectApp(store, null);
    var res := app.ProvisionDevice("1234", Device("abcd", Unknown));
    assert res == Some(TestError);
  }

  method TestDeleteDevice()
  {
    var store := new DataStore();
    store.On(Call.DeleteDevice("1234", "abcd"), Reply(None, None, Some(TestError)));
    var app := new DeviceConnectApp(store, null);
    var res := app.DeleteDevice("1234", "abcd");
    assert res == Some(TestError);
  }

  method TestGetDevice()
  {
    var device := Device("abcd", Unknown);
    var store := new DataStore();
    store.On(Call.GetDevice("1234", "not-found"), NilReply);
    store.On(Call.GetDevice("1234", "error"), Reply(None, None, Some(TestError)));
    store.On(Call.GetDevice("1234", "abcd"), Reply(Some(device), None, None));
    var app := new DeviceConnectApp(store, null);
    var dev, res := app.GetDevice("1234", "error");
    assert res == Some(TestError);
    dev, res := app.GetDevice("1234", "not-found");
    assert res == Some(ErrDeviceNotFound);
    dev, res := app.GetDevice("1234", "abcd");
    assert res == None && dev == Some(device);
  }

  method TestUpdateDeviceStatus()
  {
    var store := new DataStore();
    store.On(Call.UpdateDeviceStatus("1234", "abcd", "anything"), Reply(None, None, Some(TestError)));
    var app := new DeviceConnectApp(store, null);
    var res := app.UpdateDeviceStatus("1234", "abcd", "anything");
    assert res == Some(TestError);
  }

  method TestPrepareUserSession()
  {
    var store := new DataStore();
    store.On(Call.GetDevice("1", "3"), Reply(None, None, Some(TestError)));
    var app := new DeviceConnectApp(store, null);
    var session, err := app.PrepareUserSession("1", "2", "3");
    assert session == None && err == Some(TestError);

    store := new DataStore();
    store.On(Call.GetDevice("1", "3"), NilReply);
    app := new DeviceConnectApp(store, null);
    session, err := app.PrepareUserSession("1", "2", "3");
    assert session == None && err == Some(ErrDeviceNotFound);
    assert |store.log| == 1;

    store := new DataStore();
    store.On(Call.GetDevice("1", "3"), Reply(Some(Device("3", Disconnected)), None, None));
    app := new DeviceConnectApp(store, null);
    session, err := app.PrepareUserSession("1", "2", "3");
    assert session == None && err == Some(ErrDeviceNotConnected);
    assert |store.log| == 1 && store.log[0].call == Call.GetDevice("1", "3");

    var upsertError := Opaque("upsert error");
    store := new DataStore();
    store.On(Call.GetDevice("1", "3"), Reply(Some(Device("3", Connected)), None, None));
    store.On(Call.UpsertSession("1", "2", "3"), Reply(None, None, Some(upsertError)));
    app := new DeviceConnectApp(store, null);
    session, err := app.PrepareUserSession("1", "2", "3");
    assert session == None && err == Some(upsertError);
    assert |store.log| == 2 && store.log[1].call == Call.UpsertSession("1", "2", "3");

    var created := Session("id", "2", "3", SessionDisconnected);
    store := new DataStore();
    store.On(Call.GetDevice("1", "3"), Reply(Some(Device("3", Connected)), None, None));
    store.On(Call.UpsertSession("1", "2", "3"), Reply(None, Some(created), None));
    app := new DeviceConnectApp(store, null);
    session, err := app.PrepareUserSession("1", "2", "3");
    assert session == Some(created) && err == None;
  }

  method TestUpdateUserSessionStatus()
  {
    var store := new DataStore();
    store.On(Call.UpdateSessionStatus("1234", "abcd", "anything"), Reply(None, None, Some(TestError)));
    var app := new DeviceConnectApp(store, null);
    var res := app.UpdateUserSessionStatus("1234", "abcd", "anything");
    assert res == Some(TestError);
  }

  /** The payload "data" of the relay tests. */
  const Data: seq<byte> := [0x64, 0x61, 0x74, 0x61]

  method TestPublishMessageFromDevice(typeShell: string)
  {
    var message := Message(typeShell, Data);
    var client := new Nats.Client();
    var app := new DeviceConnectApp(null, client);
    var err := app.PublishMessageFromDevice("abcd", "1234567890", message);
    assert err == None;
    assert |client.published| == 1;
    assert client.published[0].subject == MessageSubject("abcd", "1234567890", "device");
    assert Codec.Decode(client.published[0].data) == Success(message);
  }

  method TestPublishMessageFromManagement(typeShell: string)
  {
    var message := Message(typeShell, Data);
    var client := new Nats.Client();
    var app := new DeviceConnectApp(null, client);
    var err := app.PublishMessageFromManagement("abcd", "1234567890", message);
    assert err == None;
    assert |client.published| == 1;
    assert client.published[0].subject == MessageSubject("abcd", "1234567890", "management");
    assert Codec.Decode(client.published[0].data) == Success(message);
  }

  method TestSubscribeMessagesFromDevice(typeShell: string)
  {
    var message := Message(typeShell, Data);
    var subject := MessageSubject("abcd", "1234567890", "device");
    var client := new Nats.Client();
    client.deliveries := map[subject := [Codec.Encode(message)]];
    var app := new DeviceConnectApp(null, client);
    var out, err := app.SubscribeMessagesFromDevice("abcd", "1234567890");
    assert err == None && out != null;
    assert client.subscriptions == [subject];
    Stream.DecodedEncodings([message]);
    assert Stream.EncodeAll([message]) == [Codec.Encode(message)];
    var msg := out.Receive();
    assert msg == Some(message);
  }

  method TestSubscribeMessagesFromManagement(typeShell: string)
  {
    var message := Message(typeShell, Data);
    var subject := MessageSubject("abcd", "1234567890", "management");
    var client := new Nats.Client();
    client.deliveries := map[subject := [Codec.Encode(message)]];
    var app := new DeviceConnectApp(null, client);
    var out, err := app.SubscribeMessagesFromManagement("abcd", "1234567890");
    assert err == None && out != null;
    assert client.subscriptions == [subject];
    Stream.DecodedEncodings([message]);
    assert Stream.EncodeAll([message]) == [Codec.Encode(message)];
    var msg := out.Receive();
    assert msg == Some(message);
  }

  /** Several deliveries reach the consumer in delivery order. */
  method TestSubscribeDeliversInOrder(m1: Message, m2: Message)
  {
    var subject := MessageSubject("abcd", "1234567890", "management");
    var client := new Nats.Client();
    client.deliveries := map[subject := [Codec.Encode(m1), Codec.Encode(m2)]];
    var app := new DeviceConnectApp(null, client);
    var out, err := app.SubscribeMessagesFromManagement("abcd", "1234567890");
    Stream.DecodedEncodings([m1, m2]);
    assert Stream.EncodeAll([m1, m2]) == [Codec.Encode(m1), Codec.Encode(m2)];
    var first := out.Receive();
    var second := out.Receive();
    var third := out.Receive();
    assert first == Some(m1) && second == Some(m2) && third == None;
  }
}
