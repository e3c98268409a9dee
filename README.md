# Cloud IoT Core MQTT demo device: a Dafny model

`mqtt_demo.js` is a Node.js sample device for the Google Cloud IoT Core MQTT
bridge. It signs a JSON Web Token whose audience is the project, and connects
with client id `projects/P/locations/R/registries/G/devices/D`. It subscribes
to `/devices/D/config` at QoS 1 and to `/devices/D/commands/#` at QoS 0. After
each successful connect it starts a chain that publishes a JSON reading every
30 seconds. The chain's first publish goes to `/devices/D/state`, and every
later one to `/devices/undefined/state`. For years 0 to 9999 the reading has
the fixed shape `{"temp":22,"humd":50,"time":"YYYY-MM-DD HH:MM:SS"}`; for
other years the time loses its seconds. Incoming messages are logged
with a label that depends on their topic.

This project models that behaviour and proves properties of it:

- `options.dfy` (`Options`): `Option` and `Result`.
- `text.dfy` (`Text`): decimal digits and integers, zero padding,
  `String.prototype.slice(0, n)` and the first-occurrence
  `String.prototype.replace`.
- `topics.dfy` (`Topics`): the topic and client-id templates. It also covers
  topic levels and filter matching as MQTT 3.1.1 defines them: the `/`
  separator (section 4.7.1.1), the `#` and `+` wildcards (sections 4.7.1.2 and
  4.7.1.3), and the rule that a wildcard-first filter never matches a topic
  starting with `$` (section 4.7.2).
- `router.dfy` (`Router`): the message handler's topic classification and the
  line it logs.
- `credential.dfy` (`Credential`): the claims of `createJwt`. These are `iat`,
  `exp` and `aud` (sections 4.1.6, 4.1.4 and 4.1.3 of RFC 7519). Reading the
  key file and signing are function parameters.
- `telemetry.dfy` (`Telemetry`): `fetchData` and its `JSON.stringify`. This
  includes ECMAScript's Date Time String Format for `toISOString`, including
  expanded years.
- `demo.dfy` (`Demo`): the connection arguments and the script's
  module-level state, as a class:
  - `client` and `publishChainInProgress`;
  - the request log of subscribes and publishes made on the client;
  - counters of the publishing chains started and of the armed 30-second
    timers.

Where the script is easy to misread, the model follows the code:

- The command-label test is `startsWith("/devices/D/commands")`, with no
  trailing `/`. So `/devices/D/commandsX` is labelled a command even though
  the `commands/#` subscription never delivers it
  (`Router.CommandLabelWiderThanSubscription`).
- `createJwt` hard-codes a 20-minute lifetime. The `tokenExpMins` option is
  never read.
- `createJwt` reads `Date.now()` twice. When the second reading is not
  earlier than the first and less than 1000 ms after it, `exp - iat` is 1200
  or 1201 seconds. A wall clock that steps back between the readings can make
  it smaller.
- `publishChainInProgress` is never set. Every successful `connect` event
  therefore starts one more publishing chain.
- `setTimeout(sendData, 30000)` calls `sendData` with no argument. Every tick
  after the first one therefore publishes to `/devices/undefined/state`.
- Both subscriptions are requested right after `mqtt.connect` returns,
  before any `connect` event.
- `Buffer.from(message, 'base64')` ignores its encoding argument when
  `message` is already a Buffer. Decoding is a parameter.

## Model

| member | source | states |
|---|---|---|
| Router.Classify | mqtt_demo.js:122-127 | The label kind is ConfigUpdate exactly when the topic equals `/devices/D/config`, Command exactly when the topic starts with `/devices/D/commands`, and the generic kind in every other case |
| Router.MessageLineRoundTrip | mqtt_demo.js:121-131 | The logged line splits back into the topic's kind and the decoded message, so the three labels never collide |
| Router.CommandTopicVariants | mqtt_demo.js:125-126 | `/devices/D/commands`, `/devices/D/commands/x` and `/devices/D/commandsX` are all labelled commands |
| Router.ConfigDeliveriesClassified | mqtt_demo.js:96 | For a device id holding neither `+` nor `#`, every topic the config subscription can deliver is labelled a config message |
| Router.CommandDeliveriesClassified | mqtt_demo.js:102 | For a device id holding neither `+` nor `#`, every topic the `commands/#` subscription can deliver is labelled a command |
| Router.CommandLabelWiderThanSubscription | mqtt_demo.js:125 | For a device id D holding neither `+` nor `#`, the command label also covers `/devices/D/commandsX`, a topic the `commands/#` filter does not match |
| Router.WildcardDeviceIdMisclassifies | mqtt_demo.js:96-124 | With device id `+`, the config subscription delivers `/devices/x/config`, and the handler labels it with the generic label, not as config |
| Topics.CommandsFilterMatches | mqtt_demo.js:98-102 | For a device id D holding neither `+` nor `#`, `/devices/D/commands/#` matches a topic exactly when the topic is `/devices/D/commands` or lies below `/devices/D/commands/` |
| Topics.ConfigFilterMatches | mqtt_demo.js:94-96 | For a device id D holding neither `+` nor `#`, the config filter matches exactly the one topic `/devices/D/config` |
| Topics.StateTopicInjective | mqtt_demo.js:38 | Distinct device ids give distinct state topics |
| Topics.ClientIdLevels | mqtt_demo.js:73-75 | When no part holds `/`, the client id splits into the eight levels `projects`, P, `locations`, R, `registries`, G, `devices`, D |
| Topics.Levels | mqtt_demo.js:94-102 | A topic has at least one level |
| Topics.JoinLevels | mqtt_demo.js:94-102 | Joining a topic's levels with `/` gives back the topic |
| Topics.LevelsInjective | mqtt_demo.js:96 | Topics with equal level lists are equal |
| Topics.LevelsOfSeparated | mqtt_demo.js:98-102 | The levels of `a/b` are the levels of `a` followed by those of `b` |
| Topics.MultiLevelMatches | mqtt_demo.js:102 | A filter of wildcard-free levels ending in `#` matches exactly the topics whose levels extend those levels |
| Topics.PlainFilterMatches | mqtt_demo.js:96 | A wildcard-free filter matches exactly the topics with the same levels |
| Topics.LevelsExtend | mqtt_demo.js:102 | One topic's levels extend another's exactly when it equals the other or starts with the other followed by `/` |
| Credential.Seconds | mqtt_demo.js:18-19 | `parseInt(ms / 1000)` truncates toward zero: the seconds lie within one second of the time on the side of zero |
| Credential.CreateJwt | mqtt_demo.js:13-24 | An unreadable key file fails before signing, and a signing failure is the other error. Otherwise the token is the signature of the claims with the given key and algorithm |
| Credential.ClaimsOfOneReading | mqtt_demo.js:17-21 | For one clock reading, `exp` is `iat` plus 1200 seconds and `aud` is the project id |
| Credential.ClaimsOfTwoReadings | mqtt_demo.js:18-19 | With the two `Date.now()` readings in order, `exp - iat` is at least 1200. When they are less than a second apart it is 1200 or 1201 |
| Text.PadDigits | mqtt_demo.js:33 | A zero-padded field has exactly the field width and is all digits, and its value is the number |
| Text.NatText | mqtt_demo.js:39 | The decimal text of a number is digits with no leading zero, and its value is the number |
| Text.ParseIntText | mqtt_demo.js:39 | Reading an integer off its decimal text gives back that integer and the untouched rest |
| Text.Take | mqtt_demo.js:33 | `slice(0, n)` keeps the first n characters, or all of them when there are fewer |
| Text.ReplaceFirst | mqtt_demo.js:33 | `replace('T', ' ')` keeps the length, changes only the first `T`, and leaves every other character as it was |
| Text.ReplaceFirstAt | mqtt_demo.js:33 | When the first `T` of a text follows a `T`-free part, only that occurrence changes |
| Telemetry.IsoPrefix | mqtt_demo.js:33 | The first 19 characters of `toISOString()` are the date, `T` and the clock for years 0 to 9999. For an expanded year they are the date, `T`, hours and minutes |
| Telemetry.TimeText | mqtt_demo.js:33 | The time is the date, a space and the clock. For an expanded year the seconds are cut off |
| Telemetry.TimeFormat | mqtt_demo.js:26-35 | For a four-digit year the time is `YYYY-MM-DD HH:MM:SS`, and each digit field reads back as the matching field of the clock reading |
| Telemetry.ExpandedYearTime | mqtt_demo.js:33 | For a year outside 0 to 9999 the time has 19 characters. It starts with the signed six-digit year and ends with hours and minutes, with no seconds |
| Telemetry.TimeIsPlain | mqtt_demo.js:33 | The time never needs a JSON escape |
| Telemetry.EscapePlain | mqtt_demo.js:39 | `JSON.stringify` writes text without quotes, backslashes or control characters unchanged |
| Telemetry.SerializeRoundTrip | mqtt_demo.js:39 | The JSON text of a sample whose time needs no escapes reads back as that sample |
| Telemetry.FetchDataRoundTrip | mqtt_demo.js:26-39 | Every published payload reads back as the sample it was made from |
| Telemetry.SerializeFixedReadings | mqtt_demo.js:27-39 | The payload is `{"temp":22,"humd":50,"time":"…"}`, with its keys in insertion order |
| Telemetry.PayloadShape | mqtt_demo.js:26-39 | For a four-digit year the payload is exactly 50 characters of that fixed shape |
| Demo.ConnectionArgsFor | mqtt_demo.js:75-89 | Host, port and password (the token) are passed through, and the client id is the template of the identity. The username is the non-empty `unused`, the protocol is `mqtts` and the TLS method is `TLSv1_2_method`. When no identity part holds `/`, the client id parses back into the project, region, registry and device |
| Demo.ConnectionArgsAgree | mqtt_demo.js:81-89 | Any two connection records agree on username, protocol and TLS method, and are equal exactly when host, port, client id and password are |
| Demo.ClientIdsDistinguishDevices | mqtt_demo.js:73-75 | Distinct identities whose parts hold no `/` get distinct client ids |
| Demo.SampleIsTelemetry | mqtt_demo.js:37-41 | A publish of a fresh sample at QoS 1 to a device's state topic, or to the `undefined` one, is telemetry: its payload parses to temperature 22 and humidity 50 |
| Demo.PublishKeepsConnectedLog | mqtt_demo.js:37-41 | A publish by `sendData`, to the device's state topic or the `undefined` one, keeps the log as the two subscriptions followed by telemetry only |
| Demo.ConnectedLogAppend | mqtt_demo.js:41 | Appending telemetry to a connected client's log keeps the two subscriptions first |
| Demo.DemoState.constructor | mqtt_demo.js:7-9 | At start-up there is no client, no chain is in progress and nothing has been requested |
| Demo.DemoState.MqttDemo | mqtt_demo.js:75-102 | A failing `createJwt` leaves no client and an empty log. Otherwise the client gets the connection arguments, and the log is exactly the config subscription at QoS 1 followed by the commands subscription at QoS 0 |
| Demo.DemoState.SendData | mqtt_demo.js:37-45 | One publish at QoS 1 of the serialized sample to the state topic of the argument (or of `undefined`) is appended, and one more timer is armed |
| Demo.DemoState.OnConnect | mqtt_demo.js:104-111 | A falsy `success` changes nothing. A truthy one, since the flag is never set, starts a new chain with a publish to the device's state topic |
| Demo.DemoState.OnTimer | mqtt_demo.js:44 | A timer tick publishes to `/devices/undefined/state` and re-arms itself, so the number of armed timers and of chains is unchanged |
| Demo.DemoState.OnMessage | mqtt_demo.js:121-131 | The logged line parses back into the kind of the topic and the decoded message |
| Demo.SubscriptionsPrecedePublishes | mqtt_demo.js:92-111 | With a client, requests 0 and 1 are the config and commands subscriptions, and every later request (and only those) is a publish |

## Left out

- The network, TLS and `mqtt.connect` itself are not modelled. The client is
  modelled by the log of subscribe and publish requests made on it.
- The `close`, `error` and `packetsend` handlers are not modelled; they only
  log or do nothing.
- `console.log` output is not modelled, except the line the message handler
  builds.
- `readFileSync` and `jwt.sign` are function parameters. Each can fail, which
  maps to the two credential errors. The token's encoding and signature are
  not modelled.
- `Buffer.from(message, 'base64').toString('ascii')` is a parameter. No
  property of it is claimed.
- `Date.now()` and `new Date()` enter as parameters: a time value, and a
  broken-down UTC date and time. The calendar conversion between the two is
  not modelled.
- The 30-second `setTimeout` delay is not modelled. Only the order of the
  requests and the count of armed timers are.
- Command-line parsing with yargs is not modelled. The command handler's
  call to `mqttDemo` is `Demo.DemoState.MqttDemo`, with the options as
  arguments.
- `messageType` and `numMessages` are not modelled; the code never uses them.
- `tokenExpMins` is not modelled; the code never reads it.
- The project id is assumed to be supplied. The option is not mandatory, and
  when neither `GCLOUD_PROJECT` nor `GOOGLE_CLOUD_PROJECT` is set it is
  `undefined`. The client id would then read `projects/undefined/...` and the
  claims would carry `aud: undefined`. `DeviceIdentity.projectId` and
  `Credential.MakeClaims` take a string, so neither case is represented.
- `Demo.DemoState.MqttDemo`: requires that no client exists yet, because the
  command handler runs `mqttDemo` once per process.
- `Telemetry.ParseSample` reads back only times that need no escapes, which
  covers every time `fetchData` produces. `Telemetry.Serialize` handles only
  the sample shape, not general `JSON.stringify`.
- Strings are sequences of characters. UTF-16 surrogate pairs are not
  modelled.
- A connection state machine with errors such as not-connected is not
  modelled, because the code has none. No disconnect is modelled either.
  Timer ticks keep publishing while the transport is down, for example after
  a `close` event, and the model does not reject those publishes.
- Device ids holding `+` or `#` are not covered by the subscription and
  classification claims. The script accepts any string as device id. Such an
  id turns the two subscriptions into wildcard filters and makes the state
  topic an illegal MQTT topic name (MQTT 3.1.1 section 4.7.1.1).
  `Router.WildcardDeviceIdMisclassifies` shows the config subscription then
  delivering another device's config, which gets the generic label.
