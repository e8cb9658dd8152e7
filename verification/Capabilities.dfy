/** What a probed adapter advertises (capabilities.ts): the one reading of a handshake, and the two
    answers a re-route needs. */
module Capabilities {
  import opened Options
  import opened StableSort

  /** A parsed JSON value, as far as a capability can be read from it. */
  datatype Value = Null | Bool(b: bool) | Scalar | List | Record(fields: map<string, Value>)

  /** A probed row: its capability document, or none where the stored text does not parse. */
  datatype Row = Row(caps: Option<Value>)

  datatype Key =
    | LoadSession | Resume | Fork | ListSessions | Close | Delete | AdditionalDirectories
    | PromptImage | PromptAudio | PromptEmbeddedContext
    | McpHttp | McpSse | McpAcp
    | Terminal | MediatedExecution | Steering

  function Path(key: Key): seq<string> {
    match key
    case LoadSession => ["agentCapabilities", "loadSession"]
    case Resume => ["agentCapabilities", "sessionCapabilities", "resume"]
    case Fork => ["agentCapabilities", "sessionCapabilities", "fork"]
    case ListSessions => ["agentCapabilities", "sessionCapabilities", "list"]
    case Close => ["agentCapabilities", "sessionCapabilities", "close"]
    case Delete => ["agentCapabilities", "sessionCapabilities", "delete"]
    case AdditionalDirectories => ["agentCapabilities", "sessionCapabilities", "additionalDirectories"]
    case PromptImage => ["agentCapabilities", "promptCapabilities", "image"]
    case PromptAudio => ["agentCapabilities", "promptCapabilities", "audio"]
    case PromptEmbeddedContext => ["agentCapabilities", "promptCapabilities", "embeddedContext"]
    case McpHttp => ["agentCapabilities", "mcpCapabilities", "http"]
    case McpSse => ["agentCapabilities", "mcpCapabilities", "sse"]
    case McpAcp => ["agentCapabilities", "mcpCapabilities", "acp"]
    case Terminal => ["agentCapabilities", "_meta", "terminal"]
    case MediatedExecution => ["agentCapabilities", "_meta", "mediatedExecution"]
    case Steering => ["agentCapabilities", "_meta", "midSessionSteering"]
  }

  datatype Reason = Granted | Empty | Denied | Absent

  /** `supported` is none where nothing was advertised that can be acted on. */
  datatype Answer = Answer(supported: Option<bool>, reason: Reason)

  function ValueAt(v: Value, path: seq<string>): Option<Value> {
    if path == [] then Some(v)
    else if !v.Record? || path[0] !in v.fields then None
    else ValueAt(v.fields[path[0]], path[1..])
  }

  /** Follows the path as long as it leads through objects. */
  method ReadPath(v: Value, path: seq<string>) returns (found: Option<Value>)
    ensures found == ValueAt(v, path)
  {
    var cursor := v;
    for n := 0 to |path|
      invariant ValueAt(cursor, path[n..]) == ValueAt(v, path)
    {
      assert path[n..][1..] == path[n + 1..] && path[n..][0] == path[n];
      if !cursor.Record? || path[n] !in cursor.fields { return None; }
      cursor := cursor.fields[path[n]];
    }
    return Some(cursor);
  }

  function Judge(v: Option<Value>): Answer {
    match v
    case None => Answer(None, Absent)
    case Some(Null) => Answer(Some(false), Denied)
    case Some(Bool(b)) => if b then Answer(Some(true), Granted) else Answer(Some(false), Denied)
    case Some(Record(fields)) => Answer(Some(true), if fields == map[] then Empty else Granted)
    case Some(Scalar) => Answer(None, Absent)
    case Some(List) => Answer(None, Absent)
  }

  function Capability(row: Row, key: Key): Answer {
    if row.caps.None? || !row.caps.value.Record? then Answer(None, Absent)
    else Judge(ValueAt(row.caps.value, Path(key)))
  }

  method AskCapability(row: Row, key: Key) returns (answer: Answer)
    ensures answer == Capability(row, key)
  {
    if row.caps.None? || !row.caps.value.Record? { return Answer(None, Absent); }
    var found := ReadPath(row.caps.value, Path(key));
    return Judge(found);
  }

  /** A row that advertises one value, at one path. */
  function Advertise(path: seq<string>, v: Value): Value {
    if path == [] then v else Record(map[path[0] := Advertise(path[1..], v)])
  }

  lemma {:induction false} AdvertisedIsRead(path: seq<string>, v: Value)
    ensures ValueAt(Advertise(path, v), path) == Some(v)
    decreases |path|
  {
    if path != [] { AdvertisedIsRead(path[1..], v); }
  }

  lemma {:induction false} OtherPathIsAbsent(path: seq<string>, v: Value, other: seq<string>, k: nat)
    requires k < |path| && k < |other| && path[..k] == other[..k] && path[k] != other[k]
    ensures ValueAt(Advertise(path, v), other) == None
    decreases k
  {
    if k > 0 {
      assert path[0] == path[..k][0] && other[0] == other[..k][0];
      assert path[1..][..k - 1] == path[..k][1..] && other[1..][..k - 1] == other[..k][1..];
      OtherPathIsAbsent(path[1..], v, other[1..], k - 1);
    }
  }

  /** Where two of the paths part. */
  function Parting(a: seq<string>, b: seq<string>): nat {
    if a == [] || b == [] || a[0] != b[0] then 0 else 1 + Parting(a[1..], b[1..])
  }

  lemma {:induction false} PartingParts(a: seq<string>, b: seq<string>)
    ensures var k := Parting(a, b);
            && k <= |a| && k <= |b| && a[..k] == b[..k]
            && (k < |a| && k < |b| ==> a[k] != b[k])
    decreases |a|
  {
    if a != [] && b != [] && a[0] == b[0] {
      PartingParts(a[1..], b[1..]);
      var k := Parting(a[1..], b[1..]);
      assert a[..k + 1] == [a[0]] + a[1..][..k] && b[..k + 1] == [b[0]] + b[1..][..k];
    }
  }

  /** No path is another, nor the front of another. */
  lemma {:induction false} PathsPart(key: Key, other: Key)
    requires key != other
    ensures Parting(Path(key), Path(other)) < |Path(key)| && Parting(Path(key), Path(other)) < |Path(other)|
  {
    var a, b := Path(key), Path(other);
    PartingParts(a, b);
    assert a[|a| - 1] != b[|b| - 1];
    assert a[..|a|] == a && b[..|b|] == b;
  }

  lemma {:induction false} AdvertisedElsewhere(path: seq<string>, v: Value, other: seq<string>)
    requires Parting(path, other) < |path| && Parting(path, other) < |other|
    ensures ValueAt(Advertise(path, v), other) == None
  {
    PartingParts(path, other);
    OtherPathIsAbsent(path, v, other, Parting(path, other));
  }

  lemma {:induction false} AdvertisedIsRecord(path: seq<string>, v: Value)
    requires path != []
    ensures Advertise(path, v).Record?
  {
  }

  /** What is advertised for one capability is read back for it, and for no other. */
  lemma {:induction false} AnswersAreIndependent(key: Key, v: Value, other: Key)
    ensures var row := Row(Some(Advertise(Path(key), v)));
            && Capability(row, key) == Judge(Some(v))
            && (other != key ==> Capability(row, other) == Answer(None, Absent))
  {
    AdvertisedIsRead(Path(key), v);
    AdvertisedIsRecord(Path(key), v);
    if other != key {
      PathsPart(key, other);
      AdvertisedElsewhere(Path(key), v, Path(other));
    }
  }

  /** What an answer says: false exactly where null or false stands at the capability's path, and that is a denial;
      true exactly where true or an object does, an empty one being told apart; and nothing at all where there is
      no such value, or one of another kind. */
  lemma {:induction false} AnswerMeans(row: Row, key: Key)
    ensures var answer := Capability(row, key);
            var at := if row.caps.Some? then ValueAt(row.caps.value, Path(key)) else None;
            && (answer.supported == Some(false) <==> at == Some(Null) || at == Some(Bool(false)))
            && (answer.supported == Some(true) <==> at == Some(Bool(true)) || (at.Some? && at.value.Record?))
            && (answer.reason == Denied <==> answer.supported == Some(false))
            && (answer.reason == Absent <==> answer.supported == None)
            && (answer.reason == Empty <==> at == Some(Record(map[])))
  {
    if row.caps.Some? && !row.caps.value.Record? { assert Path(key) != []; }
  }

  predicate Decides(row: Row, key: Key) { Capability(row, key).supported == Some(true) }

  function Mediated(row: Row): Option<bool> { Capability(row, MediatedExecution).supported }

  function MissingCapabilities(asked: seq<Key>, target: Row): seq<Key> {
    Filter(asked, (key: Key) => !Decides(target, key))
  }

  predicate CapabilitySuperset(asked: seq<Key>, target: Row) { |MissingCapabilities(asked, target)| == 0 }

  lemma {:induction false} SupersetMeans(asked: seq<Key>, target: Row)
    ensures CapabilitySuperset(asked, target) <==> forall key :: key in asked ==> Decides(target, key)
  {
    var missing := MissingCapabilities(asked, target);
    FilterHolds(asked, (key: Key) => !Decides(target, key));
    if missing != [] { assert missing[0] in missing; }
  }

  /** The swap does not lose the means to enforce a permission level. */
  predicate MediationUnchanged(from: Row, to: Row) {
    Mediated(to) == Some(true) || Mediated(from) != Some(true)
  }
}
