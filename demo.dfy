/**
 * `mqttDemo` and `sendData` in mqtt_demo.js: the connection record, the
 * subscriptions, and the module-level state (`client`,
 * `publishChainInProgress`) that the `connect` handler and the
 * self-rescheduling `sendData` act on. The MQTT client is modelled by the
 * record it was created with and the log of the requests made on it.
 */
module Demo {

  import opened Options
  import opened Text
  import opened Topics
  import opened Router
  import opened Credential
  import opened Telemetry

  /** The identifiers the command line supplies. */
  datatype DeviceIdentity = DeviceIdentity(projectId: string, region: string, registryId: string, deviceId: string)

  /** The `connectionArgs` object handed to `mqtt.connect`. */
  datatype ConnectionArgs = ConnectionArgs(host: string, port: int, clientId: string, username: string,
                                           password: string, protocol: string, secureProtocol: string)

  /** A call made on the MQTT client: `subscribe(topic, {qos})` or `publish(topic, payload, {qos})`. */
  datatype Request =
    | Subscribe(topic: string, qos: nat)
    | Publish(topic: string, payload: string, qos: nat)

  function ClientIdOf(identity: DeviceIdentity): string
  {
    ClientId(identity.projectId, identity.region, identity.registryId, identity.deviceId)
  }

  /** Reads the identity back out of a client identifier. */
  function ParseClientId(clientId: string): Option<DeviceIdentity>
  {
    var l := Levels(clientId);
    if |l| == 8 && l[0] == "projects" && l[2] == "locations" && l[4] == "registries" && l[6] == "devices"
    then Some(DeviceIdentity(l[1], l[3], l[5], l[7]))
    else None
  }

  predicate NoSeparators(identity: DeviceIdentity)
  {
    '/' !in identity.projectId && '/' !in identity.region && '/' !in identity.registryId && '/' !in identity.deviceId
  }

  /**
   * `connectionArgs`: only host, port, client identifier and password vary.
   * The username must be non-empty and is otherwise ignored; the client
   * identifier names the device.
   */
  function ConnectionArgsFor(identity: DeviceIdentity, host: string, port: int, password: string): (args: ConnectionArgs)
    ensures args.host == host && args.port == port && args.password == password
    ensures args.clientId == ClientIdOf(identity)
    ensures args.username == "unused" && |args.username| > 0
    ensures args.protocol == "mqtts" && args.secureProtocol == "TLSv1_2_method"
    ensures NoSeparators(identity) ==> ParseClientId(args.clientId) == Some(identity)
  {
    var args := ConnectionArgs(host, port, ClientIdOf(identity), "unused", password, "mqtts", "TLSv1_2_method");
    if NoSeparators(identity) then
      ClientIdLevels(identity.projectId, identity.region, identity.registryId, identity.deviceId);
      args
    else args
  }

  /**
   * Any two connection records agree on username, protocol and TLS method,
   * and are equal exactly when their host, port, client identifier and
   * password are.
   */
  lemma ConnectionArgsAgree(first: DeviceIdentity, firstHost: string, firstPort: int, firstPassword: string,
                            second: DeviceIdentity, secondHost: string, secondPort: int, secondPassword: string)
    ensures var a, b := ConnectionArgsFor(first, firstHost, firstPort, firstPassword),
                        ConnectionArgsFor(second, secondHost, secondPort, secondPassword);
      && a.username == b.username && a.protocol == b.protocol && a.secureProtocol == b.secureProtocol
      && (a == b <==> ClientIdOf(first) == ClientIdOf(second) && firstHost == secondHost
                      && firstPort == secondPort && firstPassword == secondPassword)
  {
  }

  /** Distinct devices whose identifiers hold no '/' connect with distinct client identifiers. */
  lemma ClientIdsDistinguishDevices(first: DeviceIdentity, second: DeviceIdentity)
    requires NoSeparators(first) && NoSeparators(second) && first != second
    ensures ClientIdOf(first) != ClientIdOf(second)
  {
    var a := ConnectionArgsFor(first, "", 0, "");
    var b := ConnectionArgsFor(second, "", 0, "");
    assert ParseClientId(a.clientId) == Some(first);
    assert ParseClientId(b.clientId) == Some(second);
  }

  /** The two subscriptions, in the order `mqttDemo` requests them. */
  function Subscriptions(deviceId: string): seq<Request>
  {
    [Subscribe(ConfigTopic(deviceId), 1), Subscribe(CommandsFilter(deviceId), 0)]
  }

  /** `${deviceId}` in a template: an absent argument prints as "undefined". */
  function TemplateText(arg: Option<string>): string
  {
    match arg
    case None => "undefined"
    case Some(s) => s
  }

  /** The connect handler's decision: a chain starts on success when none is in progress. */
  function StartsChain(success: bool, publishChainInProgress: bool): bool
  {
    success && !publishChainInProgress
  }

  /** A telemetry publish: QoS 1 to a state topic, with a payload that reads back as a fixed sample. */
  predicate IsTelemetry(request: Request, deviceId: string)
  {
    && request.Publish?
    && request.qos == 1
    && (request.topic == StateTopic(deviceId) || request.topic == StateTopic("undefined"))
    && var sample := ParseSample(request.payload);
       sample.Some? && sample.value.temp == Temperature && sample.value.humd == Humidity
  }

  /** The request log the client has while connected: the two subscriptions, then telemetry. */
  predicate ConnectedLog(requests: seq<Request>, deviceId: string)
  {
    && |requests| >= 2
    && requests[..2] == Subscriptions(deviceId)
    && forall i :: 2 <= i < |requests| ==> IsTelemetry(requests[i], deviceId)
  }

  /** A publish of a fresh sample to either state topic is telemetry. */
  lemma SampleIsTelemetry(deviceId: string, arg: Option<string>, now: DateTime)
    requires arg.None? || arg == Some(deviceId)
    ensures IsTelemetry(Publish(StateTopic(TemplateText(arg)), Serialize(FetchData(now)), 1), deviceId)
  {
    FetchDataRoundTrip(now);
  }

  lemma ConnectedLogAppend(requests: seq<Request>, deviceId: string, request: Request)
    requires ConnectedLog(requests, deviceId) && IsTelemetry(request, deviceId)
    ensures ConnectedLog(requests + [request], deviceId)
  {
    var log := requests + [request];
    assert log[..2] == requests[..2];
    forall i | 2 <= i < |log| ensures IsTelemetry(log[i], deviceId) {
      if i < |requests| { assert log[i] == requests[i]; }
    }
  }

  /** The log of a connected client stays a connected log when `sendData` publishes a fresh sample. */
  lemma PublishKeepsConnectedLog(requests: seq<Request>, deviceId: string, arg: Option<string>, now: DateTime)
    requires ConnectedLog(requests, deviceId)
    requires arg.None? || arg == Some(deviceId)
    ensures ConnectedLog(requests + [Publish(StateTopic(TemplateText(arg)), Serialize(FetchData(now)), 1)], deviceId)
  {
    SampleIsTelemetry(deviceId, arg, now);
    ConnectedLogAppend(requests, deviceId, Publish(StateTopic(TemplateText(arg)), Serialize(FetchData(now)), 1));
  }

  /** The script's module-level state and what it has asked of the MQTT client. */
  class DemoState {
    /** `client`: undefined until `mqttDemo` connects; then the arguments it connected with. */
    var client: Option<ConnectionArgs>
    /** `publishChainInProgress`: read by the connect handler, never assigned after start-up. */
    var publishChainInProgress: bool
    /** The device identifier the registered handlers captured. */
    var deviceId: string
    /** Every subscribe and publish call made on the client, in order. */
    var requests: seq<Request>
    /** How many `sendData` chains the connect handler has started. */
    var chainsStarted: nat
    /** `setTimeout(sendData, 30000)` callbacks armed and not yet run. */
    var armedTimers: nat

    /** Every chain keeps exactly one tick armed. */
    ghost predicate Valid()
      reads this
    {
      Consistent() && armedTimers == chainsStarted
    }

    /** The invariant apart from the timer count, which `sendData` restores. */
    ghost predicate Consistent()
      reads this
    {
      && !publishChainInProgress
      && (client.None? ==> requests == [] && chainsStarted == 0)
      && (client.Some? ==> ConnectedLog(requests, deviceId))
    }

    /** Script start: no client, no chain in progress. */
    constructor ()
      ensures Valid()
      ensures client.None? && !publishChainInProgress && requests == [] && chainsStarted == 0
    {
      client := None;
      publishChainInProgress := false;
      deviceId := "";
      requests := [];
      chainsStarted := 0;
      armedTimers := 0;
    }

    /**
     * `mqttDemo`, run once by the command handler: sign a token, create the
     * client, then subscribe to config at QoS 1 and to all commands at QoS 0.
     * A failure of `createJwt` throws before the client exists.
     */
    method MqttDemo(identity: DeviceIdentity, algorithm: Algorithm, privateKeyFile: string,
                    host: string, port: int, firstMs: TimeValue, secondMs: TimeValue,
                    readFile: string -> Option<seq<bv8>>,
                    sign: (Claims, seq<bv8>, Algorithm) -> Option<string>)
      returns (outcome: Result<ConnectionArgs, CredentialError>)
      requires Valid() && client.None?
      modifies this
      ensures Valid()
      ensures chainsStarted == old(chainsStarted) && armedTimers == old(armedTimers)
      ensures publishChainInProgress == old(publishChainInProgress)
      ensures match CreateJwt(identity.projectId, privateKeyFile, algorithm, firstMs, secondMs, readFile, sign)
        case Failure(e) =>
          outcome == Failure(e) && client.None? && requests == old(requests) && deviceId == old(deviceId)
        case Success(token) =>
          && outcome == Success(ConnectionArgsFor(identity, host, port, token))
          && client == Some(outcome.value)
          && deviceId == identity.deviceId
          && requests == Subscriptions(identity.deviceId)
    {
      var token := CreateJwt(identity.projectId, privateKeyFile, algorithm, firstMs, secondMs, readFile, sign);
      if token.Failure? {
        outcome := Failure(token.error);
        return;
      }
      var args := ConnectionArgsFor(identity, host, port, token.value);
      client := Some(args);
      deviceId := identity.deviceId;
      requests := requests + [Subscribe(ConfigTopic(deviceId), 1)];
      requests := requests + [Subscribe(CommandsFilter(deviceId), 0)];
      outcome := Success(args);
    }

    /** `sendData`: publish one sample to the state topic at QoS 1 and arm the next tick. */
    method SendData(arg: Option<string>, now: DateTime)
      requires Consistent() && client.Some? && armedTimers + 1 == chainsStarted
      requires arg.None? || arg == Some(deviceId)
      modifies this`requests, this`armedTimers
      ensures Valid()
      ensures requests == old(requests) + [Publish(StateTopic(TemplateText(arg)), Serialize(FetchData(now)), 1)]
      ensures armedTimers == old(armedTimers) + 1
    {
      PublishKeepsConnectedLog(requests, deviceId, arg, now);
      requests := requests + [Publish(StateTopic(TemplateText(arg)), Serialize(FetchData(now)), 1)];
      armedTimers := armedTimers + 1;
    }

    /**
     * The `connect` handler. A falsy `success` only logs; otherwise, since
     * nothing sets `publishChainInProgress`, every successful connect
     * starts one more publishing chain.
     */
    method OnConnect(success: bool, now: DateTime)
      requires Valid() && client.Some?
      modifies this
      ensures Valid()
      ensures client == old(client) && deviceId == old(deviceId) && !publishChainInProgress
      ensures StartsChain(success, old(publishChainInProgress)) == success
      ensures !success ==> requests == old(requests) && chainsStarted == old(chainsStarted)
      ensures success ==>
        && requests == old(requests) + [Publish(StateTopic(deviceId), Serialize(FetchData(now)), 1)]
        && chainsStarted == old(chainsStarted) + 1
    {
      if StartsChain(success, publishChainInProgress) {
        chainsStarted := chainsStarted + 1;
        SendData(Some(deviceId), now);
      }
    }

    /**
     * One armed `setTimeout(sendData, 30000)` callback runs. It calls
     * `sendData` with no argument, so it publishes to `/devices/undefined/state`,
     * and re-arms itself: a started chain never ends.
     */
    method OnTimer(now: DateTime)
      requires Valid() && armedTimers > 0
      modifies this
      ensures Valid()
      ensures client == old(client) && deviceId == old(deviceId) && chainsStarted == old(chainsStarted)
      ensures armedTimers == old(armedTimers)
      ensures requests == old(requests) + [Publish(StateTopic("undefined"), Serialize(FetchData(now)), 1)]
    {
      armedTimers := armedTimers - 1;
      SendData(None, now);
    }

    /** The `message` handler bound to the captured device identifier: the line it logs. */
    method OnMessage(topic: string, message: seq<bv8>, decode: seq<bv8> -> string) returns (line: string)
      requires Valid() && client.Some?
      ensures ParseLine(line) == Some((Classify(deviceId, topic), decode(message)))
    {
      line := MessageLine(deviceId, topic, message, decode);
      MessageLineRoundTrip(deviceId, topic, message, decode);
    }
  }

  /** The order the script promises: both subscriptions are requested before any publish. */
  lemma SubscriptionsPrecedePublishes(state: DemoState, i: nat)
    requires state.Valid() && state.client.Some? && i < |state.requests|
    ensures state.requests[i].Publish? <==> i >= 2
    ensures i == 0 ==> state.requests[i] == Subscribe(ConfigTopic(state.deviceId), 1)
    ensures i == 1 ==> state.requests[i] == Subscribe(CommandsFilter(state.deviceId), 0)
  {
    if i < 2 {
      assert state.requests[i] == state.requests[..2][i];
    }
  }
}
