/**
  Topic classification: an MQTT topic is split on '/', segment 1 names the
  device and segment 2 names the kind of message.
 */
module Topics {

  /** The separator of MQTT topic levels. */
  const Slash := '/'

  /** Number of occurrences of `c` in `s`. */
  function Occurrences(s: string, c: char): nat
  {
    if s == [] then 0 else (if s[0] == c then 1 else 0) + Occurrences(s[1..], c)
  }

  /**
    String splitting as JavaScript's `String.prototype.split` with a one-character
    separator: every occurrence of `sep` cuts, empty parts are kept, and the
    empty string gives one empty part.
   */
  function Split(s: string, sep: char): (parts: seq<string>)
    ensures |parts| >= 1
    decreases |s|
  {
    if s == [] then [""]
    else
      var rest := Split(s[1..], sep);
      if s[0] == sep then [""] + rest
      else [[s[0]] + rest[0]] + rest[1..]
  }

  /** The inverse of `Split`: the parts glued back together with `sep`. */
  function Join(parts: seq<string>, sep: char): (s: string)
    requires |parts| >= 1
    decreases |parts|
  {
    if |parts| == 1 then parts[0] else parts[0] + [sep] + Join(parts[1..], sep)
  }

  /** Splitting gives one more part than there are separators. */
  lemma {:induction false} SplitCount(s: string, sep: char)
    ensures |Split(s, sep)| == Occurrences(s, sep) + 1
    decreases |s|
  {
    if s != [] {
      SplitCount(s[1..], sep);
    }
  }

  /** No part produced by `Split` contains the separator. */
  lemma {:induction false} SplitPartsFree(s: string, sep: char)
    ensures forall i :: 0 <= i < |Split(s, sep)| ==> sep !in Split(s, sep)[i]
    decreases |s|
  {
    if s != [] {
      SplitPartsFree(s[1..], sep);
      var rest := Split(s[1..], sep);
      if s[0] != sep {
        assert sep !in rest[0];
        assert sep !in [s[0]] + rest[0];
      }
    }
  }

  /** Gluing the parts of `s` back together gives `s`. */
  lemma {:induction false} JoinSplit(s: string, sep: char)
    ensures Join(Split(s, sep), sep) == s
    decreases |s|
  {
    if s != [] {
      JoinSplit(s[1..], sep);
      var rest := Split(s[1..], sep);
      if s[0] == sep {
        assert Split(s, sep)[1..] == rest;
      } else {
        var parts := Split(s, sep);
        if |rest| == 1 {
          assert s == [s[0]] + s[1..];
        } else {
          assert parts[1..] == rest[1..];
          assert Join(rest, sep) == rest[0] + [sep] + Join(rest[1..], sep);
          assert s == [s[0]] + s[1..];
        }
      }
    }
  }

  /** Splitting a separator-free prefix glued to `t` extends the first part of `t`. */
  lemma {:induction false} SplitFreePrefix(a: string, t: string, sep: char)
    requires sep !in a
    ensures Split(a + t, sep) == [a + Split(t, sep)[0]] + Split(t, sep)[1..]
    decreases |a|
  {
    if a != [] {
      assert (a + t)[1..] == a[1..] + t;
      assert (a + t)[0] == a[0];
      SplitFreePrefix(a[1..], t, sep);
      assert [a[0]] + (a[1..] + Split(t, sep)[0]) == a + Split(t, sep)[0];
    } else {
      var parts := Split(t, sep);
      assert a + t == t;
      assert a + parts[0] == parts[0];
      assert parts == [parts[0]] + parts[1..];
    }
  }

  /** Splitting the join of separator-free parts gives the parts back. */
  lemma {:induction false} SplitJoin(parts: seq<string>, sep: char)
    requires |parts| >= 1
    requires forall i :: 0 <= i < |parts| ==> sep !in parts[i]
    ensures Split(Join(parts, sep), sep) == parts
    decreases |parts|
  {
    if |parts| == 1 {
      SplitFreePrefix(parts[0], "", sep);
      assert parts[0] + "" == parts[0];
    } else {
      var tail := Join(parts[1..], sep);
      SplitJoin(parts[1..], sep);
      assert parts[0] + [sep] + tail == parts[0] + ([sep] + tail);
      SplitFreePrefix(parts[0], [sep] + tail, sep);
      assert ([sep] + tail)[1..] == tail;
      assert Split([sep] + tail, sep) == [""] + parts[1..];
      assert parts[0] + "" == parts[0];
      assert parts == [parts[0]] + parts[1..];
    }
  }

  /** The message kinds the dispatcher tells apart; anything else is `Unrecognized`. */
  datatype Kind = Sensor | Status | Status8 | Status11 | Result | State | Lwt | Unrecognized

  /** The topic segment naming each recognized kind. */
  function KindName(k: Kind): string
    requires k != Unrecognized
  {
    match k
    case Sensor => "SENSOR"
    case Status => "STATUS"
    case Status8 => "STATUS8"
    case Status11 => "STATUS11"
    case Result => "RESULT"
    case State => "STATE"
    case Lwt => "LWT"
  }

  /**
    The kind a topic segment names, by exact string comparison: a segment is a
    recognized kind exactly when it is that kind's name.
   */
  function KindOf(segment: string): (k: Kind)
    ensures k != Unrecognized ==> KindName(k) == segment
    ensures k == Unrecognized ==> forall other: Kind :: other != Unrecognized ==> KindName(other) != segment
  {
    if segment == "SENSOR" then Sensor
    else if segment == "STATUS" then Status
    else if segment == "STATUS8" then Status8
    else if segment == "STATUS11" then Status11
    else if segment == "RESULT" then Result
    else if segment == "STATE" then State
    else if segment == "LWT" then Lwt
    else Unrecognized
  }

  /** Naming a kind and reading the name back gives the kind. */
  lemma KindRoundTrip(k: Kind)
    requires k != Unrecognized
    ensures KindOf(KindName(k)) == k
  {
  }

  /** The device a topic names and the kind of message it carries. */
  datatype Route = Route(externalId: string, kind: Kind)

  /**
    The classification of a topic. When the topic has fewer than three
    segments the kind is `Unrecognized`; the id is then never read, and ""
    stands for JavaScript's `undefined` when there is no segment 1 at all.
   */
  function Classify(topic: string): (route: Route)
    ensures Occurrences(topic, Slash) < 2 ==> route.kind == Unrecognized
    ensures route.kind != Unrecognized ==> Slash !in route.externalId
  {
    SplitCount(topic, Slash);
    SplitPartsFree(topic, Slash);
    var parts := Split(topic, Slash);
    var externalId := if |parts| > 1 then parts[1] else "";
    var kind := if |parts| > 2 then KindOf(parts[2]) else Unrecognized;
    Route(externalId, kind)
  }

  /**
    Classifying a topic built from levels: segment 1 is the id and segment 2
    decides the kind, whatever the root level and whatever levels follow.
   */
  lemma {:induction false} ClassifyLevels(levels: seq<string>)
    requires |levels| >= 3
    requires forall i :: 0 <= i < |levels| ==> Slash !in levels[i]
    ensures Classify(Join(levels, Slash)) == Route(levels[1], KindOf(levels[2]))
  {
    SplitJoin(levels, Slash);
  }

  /**
    The command topic `cmnd/<id>/<command>` the dispatcher publishes to: the
    three levels `cmnd`, the id and the command, which split back apart when
    neither the id nor the command contains a slash.
   */
  function CommandTopic(externalId: string, command: string): (topic: string)
    ensures topic == Join(["cmnd", externalId, command], Slash)
    ensures Slash !in externalId && Slash !in command ==> Split(topic, Slash) == ["cmnd", externalId, command]
  {
    CommandLevels(externalId, command);
    "cmnd/" + externalId + "/" + command
  }

  /** `cmnd/<id>/<command>` is the slash-join of its three levels, and splits back into them. */
  lemma CommandLevels(externalId: string, command: string)
    ensures "cmnd/" + externalId + "/" + command == Join(["cmnd", externalId, command], Slash)
    ensures Slash !in externalId && Slash !in command ==>
              Split("cmnd/" + externalId + "/" + command, Slash) == ["cmnd", externalId, command]
  {
    var levels := ["cmnd", externalId, command];
    assert Join(levels[2..], Slash) == command;
    assert Join(levels[1..], Slash) == externalId + [Slash] + command;
    assert Join(levels, Slash) == "cmnd" + [Slash] + (externalId + [Slash] + command);
    assert "cmnd/" + externalId + "/" + command == Join(levels, Slash);
    if Slash !in externalId && Slash !in command {
      assert Slash !in "cmnd";
      SplitJoin(levels, Slash);
    }
  }

  /** Classifying a command topic names the same device, and the command decides the kind. */
  lemma CommandTopicLevels(externalId: string, command: string)
    requires Slash !in externalId && Slash !in command
    ensures Classify(CommandTopic(externalId, command)) == Route(externalId, KindOf(command))
  {
  }

  /** The example topic of the handler's documentation names no handled kind. */
  lemma PowerTopicUnrecognized()
    ensures Classify("stat/tasmota/POWER") == Route("tasmota", Unrecognized)
  {
    var levels := ["stat", "tasmota", "POWER"];
    assert "stat/tasmota/POWER" == Join(levels, Slash);
    ClassifyLevels(levels);
  }
}
