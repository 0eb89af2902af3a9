/**
 * The reader's text protocol: the command frames the plugin writes, and the
 * classification of the notification frames it receives, in the priority
 * order the plugin tests them.
 */
module Frames {
  import opened Wrappers
  import opened Strings
  import opened Validation

  /** The commands the plugin sends. */
  datatype Command =
    | StartScan
    | StopScan
    | Reboot
    | SetParameter(name: string, value: string)
    | GetParameter(name: string)

  /**
   * The frame written for each command: the verb comes first, and only the
   * reboot frame holds no separator.
   */
  function Encode(c: Command): (frame: string)
    ensures Bar in frame <==> !c.Reboot?
    ensures !c.Reboot? ==> |frame| > 3 && frame[3] == Bar && frame[..3] == (if c.GetParameter? then "get" else "set")
  {
    assert "reboot" == ['r', 'e', 'b', 'o', 'o', 't'];
    match c
    case StartScan => "set|scan|1"
    case StopScan => "set|scan|0"
    case Reboot => "reboot"
    case SetParameter(name, value) => "set|" + name + "|" + value
    case GetParameter(name) => "get|" + name
  }

  /** How the reader reads a frame back into a command: split it into fields, then read the fields. */
  function Decode(frame: string): Option<Command> {
    DecodeFields(Split(frame))
  }

  function DecodeFields(fields: seq<string>): Option<Command> {
    if fields == ["set", "scan", "1"] then Some(StartScan)
    else if fields == ["set", "scan", "0"] then Some(StopScan)
    else if fields == ["reboot"] then Some(Reboot)
    else if |fields| == 3 && fields[0] == "set" then Some(SetParameter(fields[1], fields[2]))
    else if |fields| == 2 && fields[0] == "get" then Some(GetParameter(fields[1]))
    else None
  }

  /** The fields a command's frame is made of. */
  function Fields(c: Command): (fields: seq<string>)
    ensures |fields| >= 1 && Join(fields) == Encode(c)
  {
    match c
    case StartScan => ["set", "scan", "1"]
    case StopScan => ["set", "scan", "0"]
    case Reboot => ["reboot"]
    case SetParameter(name, value) =>
      assert ["set", name, value][1..] == [name, value];
      assert Join([name, value]) == name + [Bar] + value;
      ["set", name, value]
    case GetParameter(name) =>
      assert ["get", name][1..] == [name];
      ["get", name]
  }

  /**
   * The protocol defines no escaping: a command can be read back only when
   * its fields hold no separator, and a set of `scan` to 0 or 1 reads as the
   * scan command it spells.
   */
  predicate WellFormed(c: Command) {
    match c
    case SetParameter(name, value) =>
      Bar !in name && Bar !in value && !(name == "scan" && (value == "0" || value == "1"))
    case GetParameter(name) => Bar !in name
    case _ => true
  }

  /** Every well-formed command is read back from its frame as itself. */
  lemma DecodeEncode(c: Command)
    requires WellFormed(c)
    ensures Decode(Encode(c)) == Some(c)
  {
    var fields := Fields(c);
    assert forall k | 0 <= k < |fields| :: Bar !in fields[k];
    SplitJoin(fields);
  }

  /** Different well-formed commands are written as different frames. */
  lemma EncodeInjective(c: Command, d: Command)
    requires WellFormed(c) && WellFormed(d) && Encode(c) == Encode(d)
    ensures c == d
  {
    DecodeEncode(c);
    DecodeEncode(d);
  }

  /** A set or get command that passed validation is well formed, so the reader gets back what was sent. */
  lemma ValidatedCommandsRoundTrip(name: string, value: string)
    requires IsValidParameter(name) && IsValidParameterValue(name, value)
    ensures Decode(Encode(SetParameter(name, value))) == Some(SetParameter(name, value))
    ensures Decode(Encode(GetParameter(name))) == Some(GetParameter(name))
  {
    ValidValueHasNoBar(name, value);
    assert name in ValidParameters;
    DecodeEncode(SetParameter(name, value));
    DecodeEncode(GetParameter(name));
  }

  /** Setting region to EU is sent as `set|region|EU` and read back as that command. */
  lemma RegionEuRoundTrip()
    ensures Encode(SetParameter("region", "EU")) == "set|region|EU"
    ensures Decode("set|region|EU") == Some(SetParameter("region", "EU"))
  {
    assert Encode(SetParameter("region", "EU")) == "set|region|EU";
    assert IsValidParameter("region") && IsValidParameterValue("region", "EU") by {
      assert "region" == ValidParameters[1] && "EU" == ValidRegions[3];
    }
    ValidatedCommandsRoundTrip("region", "EU");
  }

  /** What an incoming notification frame means to the plugin. */
  datatype Notification =
    | TagRead(tag: string)
    | ScanStopped
    | Rebooted
    | SetSucceeded
    | SetRejected
    | ParameterValue(value: string)
    | ParameterMissing
    | Unrecognised

  /**
   * The routing rules of a notification, first match wins: a `tag|` prefix,
   * then `SCAN:0` anywhere, then `REBOOT:OK` anywhere, then a `SET:OK`
   * prefix, then a `SET:ERROR` prefix, then any `|` when a get is awaited
   * (the value is the second `|`-separated field).
   */
  function Classify(response: string, awaitingParameter: bool): (n: Notification)
    ensures n.TagRead? <==> HasPrefix(response, "tag|")
    ensures n != ParameterMissing
    ensures n.ParameterValue? ==> awaitingParameter && Bar in response && Bar !in n.value
  {
    ContainsChar(response, Bar);
    if HasPrefix(response, "tag|") then TagRead(response[4..])
    else if Contains(response, "SCAN:0") then ScanStopped
    else if Contains(response, "REBOOT:OK") then Rebooted
    else if HasPrefix(response, "SET:OK") then SetSucceeded
    else if HasPrefix(response, "SET:ERROR") then SetRejected
    else if Contains(response, "|") && awaitingParameter then
      var components := Split(response);
      if |components| >= 2 then ParameterValue(components[1]) else ParameterMissing
    else Unrecognised
  }

  /** The layout of a text with at least two fields. */
  lemma {:induction false} SecondFieldLayout(response: string)
    requires Bar in response
    ensures var parts := Split(response);
      |parts| >= 2 &&
      HasPrefix(response, parts[0] + [Bar] + parts[1]) &&
      (|response| == |parts[0]| + 1 + |parts[1]| || response[|parts[0]| + 1 + |parts[1]|] == Bar)
  {
    var parts := Split(response);
    JoinSplit(response);
    if |parts| == 2 {
      assert parts[1..] == [parts[1]];
      assert response == parts[0] + [Bar] + parts[1];
    } else {
      assert Join(parts[1..]) == parts[1] + [Bar] + Join(parts[2..]);
      assert response == (parts[0] + [Bar] + parts[1]) + [Bar] + Join(parts[2..]);
    }
  }

  /**
   * A get reply hands over the text between the first and second separator:
   * it holds no separator, and the frame is a separator-free field, a
   * separator, the value, then either nothing or a further separator.
   */
  lemma ParameterValueIsSecondField(response: string, awaitingParameter: bool)
    requires Classify(response, awaitingParameter).ParameterValue?
    ensures awaitingParameter
    ensures var v := Classify(response, awaitingParameter).value;
      var first := Split(response)[0];
      Bar !in first && Bar !in v &&
      HasPrefix(response, first + [Bar] + v) &&
      (|response| == |first| + 1 + |v| || response[|first| + 1 + |v|] == Bar)
  {
    assert Contains(response, "|");
    ContainsChar(response, Bar);
    SecondFieldLayout(response);
  }

  /** A frame whose text rules out every status rule: it falls through to the get rule. */
  lemma {:induction false} PastStatusRules(frame: string, awaitingParameter: bool)
    requires |frame| > 0 && frame[0] != 't' && frame[0] != 'S' && ':' !in frame
    ensures !(Contains(frame, "|") && awaitingParameter) ==> Classify(frame, awaitingParameter) == Unrecognised
    ensures Contains(frame, "|") && awaitingParameter ==>
      |Split(frame)| >= 2 && Classify(frame, awaitingParameter) == ParameterValue(Split(frame)[1])
  {
    MissingCharExcludes(frame, "SCAN:0", ':');
    MissingCharExcludes(frame, "REBOOT:OK", ':');
    assert !HasPrefix(frame, "tag|") by {
      if |frame| >= 4 { assert frame[..4][0] == frame[0]; }
    }
    assert !HasPrefix(frame, "SET:OK") by {
      if |frame| >= 6 { assert frame[..6][0] == frame[0]; }
    }
    assert !HasPrefix(frame, "SET:ERROR") by {
      if |frame| >= 9 { assert frame[..9][0] == frame[0]; }
    }
    ContainsChar(frame, Bar);
  }

  /** A frame starting with `tag|` goes to the scan caller whatever else it contains. */
  lemma TagComesFirst(tag: string, awaitingParameter: bool)
    ensures Classify("tag|" + tag, awaitingParameter) == TagRead(tag)
  {
    assert ("tag|" + tag)[..4] == "tag|";
    assert ("tag|" + tag)[4..] == tag;
  }

  /** Whether a get is awaited matters only for frames that hold a separator. */
  lemma AwaitingMattersOnlyWithBar(response: string)
    requires Bar !in response
    ensures Classify(response, true) == Classify(response, false)
  {
    ContainsChar(response, Bar);
  }

  /**
   * The reply to a get of a valid parameter, `<name>|<value>` with a valid
   * value, is routed to the get caller with exactly that value, and is
   * ignored when no get is awaited.
   */
  lemma ValidGetReplyRouted(name: string, value: string)
    requires IsValidParameter(name) && IsValidParameterValue(name, value)
    ensures Classify(name + "|" + value, true) == ParameterValue(value)
    ensures Classify(name + "|" + value, false) == Unrecognised
  {
    var frame := name + "|" + value;
    ValidValueHasNoBar(name, value);
    ValidValueHasNoColon(name, value);
    assert frame[0] == name[0];
    assert frame[|name|] == Bar;
    assert ':' !in frame by {
      forall k | 0 <= k < |frame| ensures frame[k] != ':' {
        if k < |name| {
          assert frame[k] == name[k];
        } else if k > |name| {
          assert frame[k] == value[k - |name| - 1];
        }
      }
    }
    assert frame == Join([name, value]) by {
      assert [name, value][1..] == [value];
    }
    SplitJoin([name, value]);
    ContainsChar(frame, Bar);
    PastStatusRules(frame, true);
    PastStatusRules(frame, false);
  }
  /** The reader's answer `region|EU` to a pending get is read as the value `EU`. */
  lemma RegionEuReplyRead()
    ensures Classify("region|EU", true) == ParameterValue("EU")
  {
    assert IsValidParameter("region") && IsValidParameterValue("region", "EU") by {
      assert "region" == ValidParameters[1] && "EU" == ValidRegions[3];
    }
    ValidGetReplyRouted("region", "EU");
    assert "region" + "|" + "EU" == "region|EU";
  }


  /** The concrete frames: a tag, a stop acknowledgement, the two set answers. */
  lemma SampleFrames(awaitingParameter: bool)
    ensures Classify("tag|A1B2", awaitingParameter) == TagRead("A1B2")
    ensures Classify("SET:OK", awaitingParameter) == SetSucceeded
    ensures Classify("SET:ERROR", awaitingParameter) == SetRejected
  {
    TagComesFirst("A1B2", awaitingParameter);
    assert "tag|" + "A1B2" == "tag|A1B2";
    MissingCharExcludes("SET:OK", "SCAN:0", '0');
    MissingCharExcludes("SET:OK", "REBOOT:OK", 'B');
    MissingCharExcludes("SET:ERROR", "SCAN:0", '0');
    MissingCharExcludes("SET:ERROR", "REBOOT:OK", 'B');
    assert "SET:OK"[..4][0] != "tag|"[0];
    assert "SET:ERROR"[..4][0] != "tag|"[0];
    assert "SET:ERROR"[..6][4] != "SET:OK"[4];
  }
}
