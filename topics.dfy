/**
 * The topic names and the client identifier that mqtt_demo.js builds from
 * template strings, and the MQTT 3.1.1 topic-filter matching (section 4.7)
 * that decides which published topics the broker delivers to a subscription.
 */
module Topics {

  import opened Text

  /** `/devices/${deviceId}/config`: subscribed for configuration updates. */
  function ConfigTopic(deviceId: string): string
  {
    "/devices/" + deviceId + "/config"
  }

  /** `/devices/${deviceId}/commands`: the prefix the message handler tests. */
  function CommandsPrefix(deviceId: string): string
  {
    "/devices/" + deviceId + "/commands"
  }

  /** `/devices/${deviceId}/commands/#`: the command subscription's filter. */
  function CommandsFilter(deviceId: string): string
  {
    "/devices/" + deviceId + "/commands/#"
  }

  /** `/devices/${deviceId}/state`: where telemetry is published. */
  function StateTopic(deviceId: string): string
  {
    "/devices/" + deviceId + "/state"
  }

  /** The MQTT client identifier Cloud IoT Core demands. */
  function ClientId(projectId: string, region: string, registryId: string, deviceId: string): string
  {
    "projects/" + projectId + "/locations/" + region + "/registries/" + registryId + "/devices/" + deviceId
  }

  // ---------------------------------------------------------------------------
  // Topic levels (MQTT 3.1.1 section 4.7.1.1: the '/' separator divides a topic
  // into levels; adjacent separators and a leading or trailing one give empty levels)
  // ---------------------------------------------------------------------------

  function Levels(topic: string): (levels: seq<string>)
    ensures |levels| >= 1
  {
    if topic == [] then [""]
    else if topic[0] == '/' then [""] + Levels(topic[1..])
    else
      var rest := Levels(topic[1..]);
      [[topic[0]] + rest[0]] + rest[1..]
  }

  /** The inverse of `Levels`: put the separators back. */
  function Join(levels: seq<string>): string
    requires |levels| >= 1
  {
    if |levels| == 1 then levels[0] else levels[0] + "/" + Join(levels[1..])
  }

  lemma {:induction false} JoinLevels(topic: string)
    ensures Join(Levels(topic)) == topic
  {
    if topic != [] {
      JoinLevels(topic[1..]);
      var rest := Levels(topic[1..]);
      if topic[0] == '/' {
        assert Levels(topic) == [""] + rest;
        assert ([""] + rest)[1..] == rest;
      } else {
        var levels := [[topic[0]] + rest[0]] + rest[1..];
        assert Levels(topic) == levels;
        if |rest| == 1 {
          assert Join(levels) == [topic[0]] + rest[0];
        } else {
          assert levels[1..] == rest[1..];
          assert Join(rest) == rest[0] + "/" + Join(rest[1..]);
          assert Join(levels) == [topic[0]] + rest[0] + "/" + Join(rest[1..]);
        }
        assert topic == [topic[0]] + topic[1..];
      }
    }
  }

  /** Distinct topics have distinct level sequences. */
  lemma LevelsInjective(s: string, t: string)
    requires Levels(s) == Levels(t)
    ensures s == t
  {
    JoinLevels(s);
    JoinLevels(t);
  }

  /** Splitting at a separator splits the levels. */
  lemma {:induction false} LevelsOfSeparated(a: string, b: string)
    ensures Levels(a + "/" + b) == Levels(a) + Levels(b)
  {
    if a == [] {
      assert a + "/" + b == "/" + b;
      assert ("/" + b)[1..] == b;
    } else {
      assert (a + "/" + b)[1..] == a[1..] + "/" + b;
      LevelsOfSeparated(a[1..], b);
      if a[0] != '/' {
        var rest := Levels(a[1..] + "/" + b);
        assert rest == Levels(a[1..]) + Levels(b);
        assert rest[0] == Levels(a[1..])[0];
        assert rest[1..] == Levels(a[1..])[1..] + Levels(b);
      }
    }
  }

  /** A string without separators is a single level. */
  lemma {:induction false} LevelsOfPlain(a: string)
    requires '/' !in a
    ensures Levels(a) == [a]
  {
    if a != [] {
      assert '/' !in a[1..] by {
        forall i | 0 <= i < |a[1..]| ensures a[1..][i] != '/' { assert a[1..][i] == a[i + 1]; }
      }
      LevelsOfPlain(a[1..]);
      assert a == [a[0]] + a[1..];
    }
  }

  lemma {:induction false} JoinOfAppend(xs: seq<string>, ys: seq<string>)
    requires |xs| >= 1 && |ys| >= 1
    ensures Join(xs + ys) == Join(xs) + "/" + Join(ys)
  {
    if |xs| > 1 {
      assert (xs + ys)[1..] == xs[1..] + ys;
      JoinOfAppend(xs[1..], ys);
    } else {
      assert (xs + ys)[1..] == ys;
    }
  }

  /** Every character of a level is a character of the topic. */
  lemma {:induction false} LevelCharacters(topic: string, k: nat, j: nat)
    requires k < |Levels(topic)| && j < |Levels(topic)[k]|
    ensures Levels(topic)[k][j] in topic
  {
    if topic != [] {
      var rest := Levels(topic[1..]);
      if topic[0] == '/' {
        assert k >= 1;
        LevelCharacters(topic[1..], k - 1, j);
      } else if k == 0 {
        if j > 0 {
          LevelCharacters(topic[1..], 0, j - 1);
        }
      } else {
        LevelCharacters(topic[1..], k, j);
      }
    }
  }

  // ---------------------------------------------------------------------------
  // Topic filters (MQTT 3.1.1 section 4.7.1.2 and 4.7.1.3)
  // ---------------------------------------------------------------------------

  /**
   * Level-wise matching: '+' matches exactly one level, '#' matches the
   * level it stands in and every level below it, including none (so
   * `a/#` matches `a`); any other level must be equal.
   */
  predicate FilterMatches(filter: seq<string>, topic: seq<string>)
  {
    if filter == [] then topic == []
    else if filter[0] == "#" then true
    else if topic == [] then false
    else (filter[0] == "+" || filter[0] == topic[0]) && FilterMatches(filter[1..], topic[1..])
  }

  /**
   * Whether the broker delivers a message on `topic` to a subscription
   * with `filter`. Section 4.7.2: a filter that starts with a wildcard
   * does not match a topic whose name starts with '$'.
   */
  predicate TopicMatches(filter: string, topic: string)
  {
    var f := Levels(filter);
    if |topic| > 0 && topic[0] == '$' && (f[0] == "+" || f[0] == "#") then false
    else FilterMatches(f, Levels(topic))
  }

  predicate NoWildcardLevels(levels: seq<string>)
  {
    forall k :: 0 <= k < |levels| ==> levels[k] != "+" && levels[k] != "#"
  }

  /** An identifier that holds neither wildcard character. */
  predicate NoWildcards(s: string)
  {
    '+' !in s && '#' !in s
  }

  lemma NoWildcardsInLevels(s: string)
    requires NoWildcards(s)
    ensures NoWildcardLevels(Levels(s))
  {
    forall k | 0 <= k < |Levels(s)|
      ensures Levels(s)[k] != "+" && Levels(s)[k] != "#"
    {
      if |Levels(s)[k]| == 1 {
        LevelCharacters(s, k, 0);
      }
    }
  }

  /** A filter ending in '#' matches exactly the topics that extend its other levels. */
  lemma {:induction false} MultiLevelMatches(prefix: seq<string>, topic: seq<string>)
    requires NoWildcardLevels(prefix)
    ensures FilterMatches(prefix + ["#"], topic) <==> |prefix| <= |topic| && topic[..|prefix|] == prefix
  {
    if prefix == [] {
      assert prefix + ["#"] == ["#"];
    } else {
      assert (prefix + ["#"])[1..] == prefix[1..] + ["#"];
      assert NoWildcardLevels(prefix[1..]) by {
        forall k | 0 <= k < |prefix[1..]| ensures prefix[1..][k] != "+" && prefix[1..][k] != "#" {
          assert prefix[1..][k] == prefix[k + 1];
        }
      }
      assert prefix[0] != "+" && prefix[0] != "#";
      if topic != [] {
        MultiLevelMatches(prefix[1..], topic[1..]);
        if |prefix| <= |topic| {
          assert topic[..|prefix|] == [topic[0]] + topic[1..][..|prefix| - 1];
          assert prefix == [prefix[0]] + prefix[1..];
        }
      }
    }
  }

  /** A filter without wildcards matches only itself. */
  lemma {:induction false} PlainFilterMatches(filter: seq<string>, topic: seq<string>)
    requires NoWildcardLevels(filter)
    ensures FilterMatches(filter, topic) <==> topic == filter
  {
    if filter != [] {
      assert filter[0] != "+" && filter[0] != "#";
      assert NoWildcardLevels(filter[1..]) by {
        forall k | 0 <= k < |filter[1..]| ensures filter[1..][k] != "+" && filter[1..][k] != "#" {
          assert filter[1..][k] == filter[k + 1];
        }
      }
      if topic != [] {
        PlainFilterMatches(filter[1..], topic[1..]);
        assert topic == [topic[0]] + topic[1..];
        assert filter == [filter[0]] + filter[1..];
      }
    }
  }

  /** A topic's levels extend those of `prefix` exactly when it is `prefix` or lies below it. */
  lemma LevelsExtend(prefix: string, topic: string)
    ensures (|Levels(prefix)| <= |Levels(topic)| && Levels(topic)[..|Levels(prefix)|] == Levels(prefix))
        <==> topic == prefix || StartsWith(topic, prefix + "/")
  {
    var p, t := Levels(prefix), Levels(topic);
    if |p| <= |t| && t[..|p|] == p {
      LevelPrefixStartsWith(prefix, topic);
    }
    if StartsWith(topic, prefix + "/") {
      StartsWithLevelPrefix(prefix, topic);
    }
  }

  lemma LevelPrefixStartsWith(prefix: string, topic: string)
    requires |Levels(prefix)| <= |Levels(topic)| && Levels(topic)[..|Levels(prefix)|] == Levels(prefix)
    ensures topic == prefix || StartsWith(topic, prefix + "/")
  {
    var p, t := Levels(prefix), Levels(topic);
    JoinLevels(prefix);
    JoinLevels(topic);
    if |p| < |t| {
      var below := t[|p|..];
      assert t == p + below;
      JoinOfAppend(p, below);
      assert topic == prefix + "/" + Join(below);
      assert topic[..|prefix + "/"|] == prefix + "/";
    } else {
      assert t == p;
    }
  }

  lemma StartsWithLevelPrefix(prefix: string, topic: string)
    requires StartsWith(topic, prefix + "/")
    ensures |Levels(prefix)| <= |Levels(topic)| && Levels(topic)[..|Levels(prefix)|] == Levels(prefix)
  {
    var below := topic[|prefix| + 1..];
    assert topic == prefix + "/" + below;
    LevelsOfSeparated(prefix, below);
    assert Levels(topic)[..|Levels(prefix)|] == Levels(prefix);
  }

  /** The levels of a four-level topic whose third part may itself hold separators. */
  lemma LevelsOfFour(a: string, b: string, c: string, d: string)
    requires '/' !in a && '/' !in b && '/' !in d
    ensures Levels(a + "/" + b + "/" + c + "/" + d) == [a, b] + Levels(c) + [d]
  {
    assert a + "/" + b + "/" + c + "/" + d == a + "/" + b + "/" + (c + "/" + d);
    LevelsOfPair(a, b, c + "/" + d);
    LevelsOfSeparated(c, d);
    LevelsOfPlain(d);
  }

  lemma CommandsFilterLevels(deviceId: string)
    ensures Levels(CommandsFilter(deviceId)) == Levels(CommandsPrefix(deviceId)) + ["#"]
    ensures Levels(CommandsPrefix(deviceId)) == ["", "devices"] + Levels(deviceId) + ["commands"]
  {
    var prefix := CommandsPrefix(deviceId);
    assert CommandsFilter(deviceId) == prefix + "/" + "#";
    LevelsOfSeparated(prefix, "#");
    LevelsOfPlain("#");
    assert prefix == "" + "/" + "devices" + "/" + deviceId + "/" + "commands";
    LevelsOfFour("", "devices", deviceId, "commands");
  }

  lemma ConfigTopicLevels(deviceId: string)
    ensures Levels(ConfigTopic(deviceId)) == ["", "devices"] + Levels(deviceId) + ["config"]
  {
    assert ConfigTopic(deviceId) == "" + "/" + "devices" + "/" + deviceId + "/" + "config";
    LevelsOfFour("", "devices", deviceId, "config");
  }

  /** Which topics the broker delivers to the `/devices/D/commands/#` subscription. */
  lemma CommandsFilterMatches(deviceId: string, topic: string)
    requires NoWildcards(deviceId)
    ensures TopicMatches(CommandsFilter(deviceId), topic)
        <==> topic == CommandsPrefix(deviceId) || StartsWith(topic, CommandsPrefix(deviceId) + "/")
  {
    CommandsFilterLevels(deviceId);
    var p := Levels(CommandsPrefix(deviceId));
    NoWildcardsInLevels(deviceId);
    assert NoWildcardLevels(p) by {
      forall k | 0 <= k < |p| ensures p[k] != "+" && p[k] != "#" {
        if 2 <= k < |p| - 1 { assert p[k] == Levels(deviceId)[k - 2]; }
      }
    }
    assert Levels(CommandsFilter(deviceId))[0] == "";
    MultiLevelMatches(p, Levels(topic));
    LevelsExtend(CommandsPrefix(deviceId), topic);
  }

  /** The `/devices/D/config` subscription receives that one topic and nothing else. */
  lemma ConfigFilterMatches(deviceId: string, topic: string)
    requires NoWildcards(deviceId)
    ensures TopicMatches(ConfigTopic(deviceId), topic) <==> topic == ConfigTopic(deviceId)
  {
    ConfigTopicLevels(deviceId);
    var f := Levels(ConfigTopic(deviceId));
    NoWildcardsInLevels(deviceId);
    assert NoWildcardLevels(f) by {
      forall k | 0 <= k < |f| ensures f[k] != "+" && f[k] != "#" {
        if 2 <= k < |f| - 1 { assert f[k] == Levels(deviceId)[k - 2]; }
      }
    }
    PlainFilterMatches(f, Levels(topic));
    if Levels(topic) == f {
      LevelsInjective(topic, ConfigTopic(deviceId));
    }
  }

  /** The state topic names its device: different devices publish to different topics. */
  lemma StateTopicInjective(d1: string, d2: string)
    requires StateTopic(d1) == StateTopic(d2)
    ensures d1 == d2
  {
    var t := StateTopic(d1);
    assert t[9..|t| - 6] == d1;
    assert StateTopic(d2)[9..|t| - 6] == d2;
  }

  /** Identifiers without separators can be read back out of the client identifier. */
  lemma ClientIdLevels(projectId: string, region: string, registryId: string, deviceId: string)
    requires '/' !in projectId && '/' !in region && '/' !in registryId && '/' !in deviceId
    ensures Levels(ClientId(projectId, region, registryId, deviceId))
         == ["projects", projectId, "locations", region, "registries", registryId, "devices", deviceId]
  {
    ClientIdKeys();
    ClientIdRegroup("projects", projectId, "locations", region, "registries", registryId, "devices", deviceId);
    ClientIdLevelsSplit("projects", projectId, "locations", region, "registries", registryId, "devices", deviceId);
  }

  /** Solver aid: the fixed parts of the client id, written as keys between separators. */
  lemma ClientIdKeys()
    ensures "projects/" == "projects" + "/"
    ensures "/locations/" == "/" + "locations" + "/"
    ensures "/registries/" == "/" + "registries" + "/"
    ensures "/devices/" == "/" + "devices" + "/"
    ensures '/' !in "projects" && '/' !in "locations" && '/' !in "registries" && '/' !in "devices"
  {
  }

  /** Solver aid: regroups the client id's concatenation to the nesting `ClientIdLevelsSplit` takes. */
  lemma ClientIdRegroup(k1: string, v1: string, k2: string, v2: string, k3: string, v3: string, k4: string, v4: string)
    ensures (k1 + "/") + v1 + ("/" + k2 + "/") + v2 + ("/" + k3 + "/") + v3 + ("/" + k4 + "/") + v4
         == k1 + "/" + v1 + "/" + (k2 + "/" + v2 + "/" + (k3 + "/" + v3 + "/" + (k4 + "/" + v4)))
  {
  }

  lemma ClientIdLevelsSplit(k1: string, v1: string, k2: string, v2: string, k3: string, v3: string, k4: string, v4: string)
    requires '/' !in k1 && '/' !in v1 && '/' !in k2 && '/' !in v2
    requires '/' !in k3 && '/' !in v3 && '/' !in k4 && '/' !in v4
    ensures Levels(k1 + "/" + v1 + "/" + (k2 + "/" + v2 + "/" + (k3 + "/" + v3 + "/" + (k4 + "/" + v4))))
         == [k1, v1, k2, v2, k3, v3, k4, v4]
  {
    var t4 := k4 + "/" + v4;
    var t3 := k3 + "/" + v3 + "/" + t4;
    var t2 := k2 + "/" + v2 + "/" + t3;
    LevelsOfSeparated(k4, v4);
    LevelsOfPlain(k4); LevelsOfPlain(v4);
    LevelsOfPair(k3, v3, t4);
    LevelsOfPair(k2, v2, t3);
    LevelsOfPair(k1, v1, t2);
  }

  lemma LevelsOfPair(k: string, v: string, rest: string)
    requires '/' !in k && '/' !in v
    ensures Levels(k + "/" + v + "/" + rest) == [k, v] + Levels(rest)
  {
    assert k + "/" + v + "/" + rest == k + "/" + (v + "/" + rest);
    LevelsOfSeparated(k, v + "/" + rest);
    LevelsOfSeparated(v, rest);
    LevelsOfPlain(k);
    LevelsOfPlain(v);
  }
}
