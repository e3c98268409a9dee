/**
 * The `message` handler of mqtt_demo.js: an ordered three-way decision on
 * the topic, whose label is then followed by the decoded message body.
 */
module Router {

  import opened Options
  import opened Text
  import opened Topics

  datatype ChannelKind = ConfigUpdate | Command | Unrecognized

  /**
   * The exact config topic is tested first; otherwise any topic that starts
   * with `/devices/D/commands` (no trailing separator) is a command.
   */
  function Classify(deviceId: string, topic: string): (kind: ChannelKind)
    ensures kind == ConfigUpdate <==> topic == ConfigTopic(deviceId)
    ensures kind == Command <==> StartsWith(topic, CommandsPrefix(deviceId))
    ensures kind == Unrecognized <==> topic != ConfigTopic(deviceId) && !StartsWith(topic, CommandsPrefix(deviceId))
  {
    if topic == ConfigTopic(deviceId) then ConfigUpdate
    else if StartsWith(topic, CommandsPrefix(deviceId)) then Command
    else Unrecognized
  }

  function Label(kind: ChannelKind): string
  {
    match kind
    case ConfigUpdate => "Config message received: "
    case Command => "Command message received: "
    case Unrecognized => "Message received: "
  }

  /**
   * The line the handler logs. `decode` stands for the foreign
   * `Buffer.from(message, 'base64').toString('ascii')` call.
   */
  function MessageLine(deviceId: string, topic: string, message: seq<bv8>, decode: seq<bv8> -> string): string
  {
    Label(Classify(deviceId, topic)) + decode(message)
  }

  /** Reads the channel and the body back out of a logged line. */
  function ParseLine(line: string): Option<(ChannelKind, string)>
  {
    if StartsWith(line, Label(ConfigUpdate)) then Some((ConfigUpdate, line[|Label(ConfigUpdate)|..]))
    else if StartsWith(line, Label(Command)) then Some((Command, line[|Label(Command)|..]))
    else if StartsWith(line, Label(Unrecognized)) then Some((Unrecognized, line[|Label(Unrecognized)|..]))
    else None
  }

  /** No message is dropped: the line names the channel and carries the whole decoded body. */
  lemma MessageLineRoundTrip(deviceId: string, topic: string, message: seq<bv8>, decode: seq<bv8> -> string)
    ensures ParseLine(MessageLine(deviceId, topic, message, decode)) == Some((Classify(deviceId, topic), decode(message)))
  {
    var kind := Classify(deviceId, topic);
    var line := MessageLine(deviceId, topic, message, decode);
    assert line[..|Label(kind)|] == Label(kind);
    assert line[|Label(kind)|..] == decode(message);
    match kind
    case ConfigUpdate =>
    case Command =>
      assert line[2] == 'm';
      assert !StartsWith(line, Label(ConfigUpdate)) by { assert Label(ConfigUpdate)[2] == 'n'; }
    case Unrecognized =>
      assert line[0] == 'M';
      assert !StartsWith(line, Label(ConfigUpdate)) by { assert Label(ConfigUpdate)[0] == 'C'; }
      assert !StartsWith(line, Label(Command)) by { assert Label(Command)[0] == 'C'; }
  }

  /** The three spellings of a command topic the handler accepts, including one no subscription delivers. */
  lemma CommandTopicVariants(deviceId: string)
    ensures Classify(deviceId, "/devices/" + deviceId + "/commands") == Command
    ensures Classify(deviceId, "/devices/" + deviceId + "/commands/x") == Command
    ensures Classify(deviceId, "/devices/" + deviceId + "/commandsX") == Command
  {
    var p := CommandsPrefix(deviceId);
    assert ("/devices/" + deviceId + "/commands/x")[..|p|] == p;
    assert ("/devices/" + deviceId + "/commandsX")[..|p|] == p;
  }

  /** What the config subscription delivers is labelled as configuration. */
  lemma ConfigDeliveriesClassified(deviceId: string, topic: string)
    requires NoWildcards(deviceId)
    requires TopicMatches(ConfigTopic(deviceId), topic)
    ensures Classify(deviceId, topic) == ConfigUpdate
  {
    ConfigFilterMatches(deviceId, topic);
  }

  /** What the `commands/#` subscription delivers is labelled as a command. */
  lemma CommandDeliveriesClassified(deviceId: string, topic: string)
    requires NoWildcards(deviceId)
    requires TopicMatches(CommandsFilter(deviceId), topic)
    ensures Classify(deviceId, topic) == Command
  {
    CommandsFilterMatches(deviceId, topic);
    var p := CommandsPrefix(deviceId);
    if topic != p {
      assert topic[..|p|] == (topic[..|p + "/"|])[..|p|];
    }
  }

  /**
   * The handler's prefix test is wider than the subscription: `/devices/D/commandsX`
   * is labelled a command although `/devices/D/commands/#` does not match it.
   */
  lemma CommandLabelWiderThanSubscription(deviceId: string)
    requires NoWildcards(deviceId)
    ensures Classify(deviceId, CommandsPrefix(deviceId) + "X") == Command
    ensures !TopicMatches(CommandsFilter(deviceId), CommandsPrefix(deviceId) + "X")
  {
    var p := CommandsPrefix(deviceId);
    var t := p + "X";
    assert t[..|p|] == p;
    CommandsFilterMatches(deviceId, t);
    assert t[|p|] == 'X';
  }

  /**
   * A device id holding a wildcard turns the config subscription into a
   * wildcard filter: with id `+` it delivers another device's config topic,
   * which the handler's exact test then gives the generic label.
   */
  lemma WildcardDeviceIdMisclassifies()
    ensures TopicMatches(ConfigTopic("+"), ConfigTopic("x"))
    ensures Classify("+", ConfigTopic("x")) == Unrecognized
  {
    ConfigTopicLevels("+");
    ConfigTopicLevels("x");
    LevelsOfPlain("+");
    LevelsOfPlain("x");
    var f, t := Levels(ConfigTopic("+")), Levels(ConfigTopic("x"));
    assert f == ["", "devices", "+", "config"];
    assert t == ["", "devices", "x", "config"];
    assert FilterMatches(f[3..], t[3..]);
    assert FilterMatches(f[2..], t[2..]);
    assert FilterMatches(f[1..], t[1..]);
    assert ConfigTopic("x")[9] != ConfigTopic("+")[9];
    assert |ConfigTopic("x")| < |CommandsPrefix("+")|;
  }
}
