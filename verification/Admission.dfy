/** Admission of a node on a probed row (admission.ts), and the questions a quota re-route asks
    instead (quota-route.ts): two readings of the same requirements that must agree. */
module Admission {
  import opened Options
  import opened Capabilities

  datatype Permission = ReadOnly | Worktree | WorktreeNet | Full

  /** The requirements a runner asks for, as capability questions. */
  const CAPABILITY_REQUIREMENTS: map<string, Key> := map[
    "session.resume" := Resume, "session.fork" := Fork, "session.list" := ListSessions,
    "session.close" := Close, "session.delete" := Delete,
    "additionalDirectories" := AdditionalDirectories, "loadSession" := LoadSession,
    "mcp.http" := McpHttp, "mcp.sse" := McpSse, "mcp.acp" := McpAcp,
    "prompt.image" := PromptImage, "prompt.audio" := PromptAudio,
    "prompt.embeddedContext" := PromptEmbeddedContext,
    "terminal" := Terminal, "mediatedExecution" := MediatedExecution
  ]

  /** The plan's requirements, as a runner asks for them; none where no row can answer. */
  const ADAPTER_REQUIREMENTS: map<string, Option<string>> := map[
    "structuredOutput" := None, "streaming" := None, "imageInput" := Some("prompt.image"),
    "mcp" := None, "resumableSessions" := Some("session.resume")
  ]

  /** A node's requirement: a name of either vocabulary, or a structural one. */
  datatype Requirement = Named(name: string) | Structural

  predicate Askable(name: string) { name in CAPABILITY_REQUIREMENTS }

  predicate Grants(row: Row, name: string) { Askable(name) && Decides(row, CAPABILITY_REQUIREMENTS[name]) }

  datatype Refusal = NoRow | Missing(requirement: string) | PermissionUnschedulable

  /** The first requirement the row does not grant. */
  function FirstMissing(names: seq<string>, row: Row): Option<string> {
    if names == [] then None
    else if !Grants(row, names[0]) then Some(names[0])
    else FirstMissing(names[1..], row)
  }

  function Admit(names: seq<string>, permission: Permission, row: Option<Row>): Option<Refusal> {
    if row.None? then (if names == [] then None else Some(NoRow))
    else if FirstMissing(names, row.value).Some? then Some(Missing(FirstMissing(names, row.value).value))
    else if permission != ReadOnly && Mediated(row.value) == Some(false) then Some(PermissionUnschedulable)
    else None
  }

  method AdmitNode(names: seq<string>, permission: Permission, row: Option<Row>) returns (refusal: Option<Refusal>)
    requires forall k | 0 <= k < |names| :: Askable(names[k])
    ensures refusal == Admit(names, permission, row)
  {
    if row.None? { return if names == [] then None else Some(NoRow); }
    for n := 0 to |names|
      invariant FirstMissing(names[n..], row.value) == FirstMissing(names, row.value)
    {
      assert names[n..][1..] == names[n + 1..];
      var answer := AskCapability(row.value, CAPABILITY_REQUIREMENTS[names[n]]);
      if answer.supported == Some(true) { continue; }
      return Some(Missing(names[n]));
    }
    if permission != ReadOnly {
      var mediated := AskCapability(row.value, MediatedExecution);
      if mediated.supported == Some(false) { return Some(PermissionUnschedulable); }
    }
    return None;
  }

  predicate GrantsAll(row: Row, names: seq<string>) { forall k | 0 <= k < |names| :: Grants(row, names[k]) }

  /** The first requirement a row does not grant. */
  predicate IsFirstMissing(names: seq<string>, row: Row, k: nat) {
    k < |names| && !Grants(row, names[k]) && forall j | 0 <= j < k :: Grants(row, names[j])
  }

  /** Admission means every requirement granted, and execution not refused above `read`; a refusal names the first
      requirement that is not granted, and only then the level. Without a probed row only a node that asks for
      nothing is admitted. */
  lemma {:induction false} AdmitMeans(names: seq<string>, permission: Permission, row: Option<Row>)
    ensures var refusal := Admit(names, permission, row);
            && (row.None? ==> refusal == if names == [] then None else Some(NoRow))
            && (row.Some? ==>
                  var denied := permission != ReadOnly && Mediated(row.value) == Some(false);
                  && (refusal.None? <==> GrantsAll(row.value, names) && !denied)
                  && (refusal == Some(PermissionUnschedulable) <==> GrantsAll(row.value, names) && denied)
                  && (forall name :: refusal == Some(Missing(name)) <==>
                        exists k: nat :: IsFirstMissing(names, row.value, k) && names[k] == name))
  {
    if row.Some? {
      FirstMissingMeans(names, row.value);
      FirstMissingIs(names, row.value);
    }
  }

  lemma {:induction false} FirstMissingIs(names: seq<string>, row: Row)
    ensures forall name :: FirstMissing(names, row) == Some(name) <==>
              exists k: nat :: IsFirstMissing(names, row, k) && names[k] == name
    decreases |names|
  {
    if names != [] {
      FirstMissingIs(names[1..], row);
      assert forall k | 0 < k < |names| :: names[k] == names[1..][k - 1];
      if Grants(row, names[0]) {
        forall k: nat ensures IsFirstMissing(names, row, k + 1) <==> IsFirstMissing(names[1..], row, k) { }
        forall k: nat | IsFirstMissing(names, row, k) ensures k > 0 && IsFirstMissing(names[1..], row, k - 1) { }
        forall k: nat | IsFirstMissing(names[1..], row, k) ensures names[1..][k] == names[k + 1] { }
      } else {
        assert IsFirstMissing(names, row, 0);
      }
    }
  }

  lemma {:induction false} FirstMissingMeans(names: seq<string>, row: Row)
    ensures FirstMissing(names, row).None? <==> forall k | 0 <= k < |names| :: Grants(row, names[k])
    decreases |names|
  {
    if names != [] {
      FirstMissingMeans(names[1..], row);
      assert forall k | 0 < k < |names| :: names[k] == names[1..][k - 1];
      assert forall k | 0 <= k < |names[1..]| :: names[1..][k] == names[k + 1];
    }
  }

  // ---------- The questions of a re-route ----------

  /** A requirement as a runner asks for it. The plan's vocabulary is looked up first. */
  function Translate(r: Requirement): Option<string> {
    if r.Structural? then None
    else if r.name in ADAPTER_REQUIREMENTS then ADAPTER_REQUIREMENTS[r.name]
    else if Askable(r.name) then Some(r.name)
    else None
  }

  lemma {:induction false} TranslatedIsAskable(r: Requirement)
    ensures Translate(r).Some? ==> Askable(Translate(r).value)
  {
  }

  function QuestionOf(r: Requirement): Option<Key> {
    TranslatedIsAskable(r);
    if Translate(r).Some? then Some(CAPABILITY_REQUIREMENTS[Translate(r).value]) else None
  }

  /** What a runner asks of admission for a node's requirements. */
  function Names(rs: seq<Requirement>): (names: seq<string>)
    ensures forall k | 0 <= k < |names| :: Askable(names[k])
  {
    if rs == [] then []
    else
      TranslatedIsAskable(rs[|rs| - 1]);
      Names(rs[..|rs| - 1]) + if Translate(rs[|rs| - 1]).Some? then [Translate(rs[|rs| - 1]).value] else []
  }

  /** What a requirement asks of admission: the plan's own names for images and resumable sessions, any name of the
      runner's vocabulary as it is, and nothing where no row can answer. */
  predicate Asks(r: Requirement, name: string) {
    && r.Named?
    && (if r.name == "imageInput" then name == "prompt.image"
        else if r.name == "resumableSessions" then name == "session.resume"
        else name == r.name && Askable(name))
  }

  /** The names asked are those of the requirements. */
  lemma {:induction false} NamesAre(rs: seq<Requirement>, name: string)
    ensures name in Names(rs) <==> exists k :: 0 <= k < |rs| && Asks(rs[k], name)
    decreases |rs|
  {
    if rs != [] {
      var front := rs[..|rs| - 1];
      NamesAre(front, name);
      assert forall k | 0 <= k < |front| :: rs[k] == front[k];
      assert Asks(rs[|rs| - 1], name) <==> Translate(rs[|rs| - 1]) == Some(name);
    }
  }

  function Questions(rs: seq<Requirement>): seq<Key> {
    if rs == [] then []
    else
      var keys, q := Questions(rs[..|rs| - 1]), QuestionOf(rs[|rs| - 1]);
      if q.Some? && q.value !in keys then keys + [q.value] else keys
  }

  method CapabilityQuestions(rs: seq<Requirement>) returns (keys: seq<Key>)
    ensures keys == Questions(rs)
  {
    keys := [];
    for n := 0 to |rs|
      invariant keys == Questions(rs[..n])
    {
      assert rs[..n + 1][..n] == rs[..n];
      var q := QuestionOf(rs[n]);
      if q.Some? && q.value !in keys { keys := keys + [q.value]; }
    }
    assert rs[..|rs|] == rs;
  }

  /** The questions are those of the names, each asked once. */
  lemma {:induction false} QuestionsAreTheNames(rs: seq<Requirement>)
    ensures forall key :: key in Questions(rs) <==>
              exists k :: 0 <= k < |Names(rs)| && CAPABILITY_REQUIREMENTS[Names(rs)[k]] == key
    ensures forall j, k | 0 <= j < k < |Questions(rs)| :: Questions(rs)[j] != Questions(rs)[k]
  {
    if rs != [] {
      var front, r := rs[..|rs| - 1], rs[|rs| - 1];
      QuestionsAreTheNames(front);
      TranslatedIsAskable(r);
      var earlier, names := Names(front), Names(rs);
      assert forall k | 0 <= k < |earlier| :: names[k] == earlier[k];
      if Translate(r).Some? { assert names[|earlier|] == Translate(r).value; }
    }
  }

  datatype Equivalence = Equivalence(capabilitySuperset: bool, permissionUnchanged: bool, missing: seq<Key>)

  function RerouteEquivalence(rs: seq<Requirement>, from: Option<Row>, to: Row): Equivalence {
    var missing := MissingCapabilities(Questions(rs), to);
    Equivalence(|missing| == 0, from.Some? && MediationUnchanged(from.value, to), missing)
  }

  lemma {:induction false} SupersetGrants(rs: seq<Requirement>, to: Row, k: nat)
    requires CapabilitySuperset(Questions(rs), to) && k < |Names(rs)|
    ensures Grants(to, Names(rs)[k])
  {
    SupersetMeans(Questions(rs), to);
    QuestionsAreTheNames(rs);
    assert Askable(Names(rs)[k]) && CAPABILITY_REQUIREMENTS[Names(rs)[k]] in Questions(rs);
  }

  lemma {:induction false} GrantedAnswers(rs: seq<Requirement>, to: Row, key: Key)
    requires (forall k | 0 <= k < |Names(rs)| :: Grants(to, Names(rs)[k])) && key in Questions(rs)
    ensures Decides(to, key)
  {
    QuestionsAreTheNames(rs);
    var k :| 0 <= k < |Names(rs)| && CAPABILITY_REQUIREMENTS[Names(rs)[k]] == key;
    assert Grants(to, Names(rs)[k]);
  }

  /** A target is a superset exactly where it grants everything admission would ask. */
  lemma {:induction false} SupersetAdmitsNames(rs: seq<Requirement>, to: Row)
    ensures CapabilitySuperset(Questions(rs), to) <==> forall k | 0 <= k < |Names(rs)| :: Grants(to, Names(rs)[k])
  {
    if CapabilitySuperset(Questions(rs), to) {
      forall k | 0 <= k < |Names(rs)| ensures Grants(to, Names(rs)[k]) { SupersetGrants(rs, to, k); }
    }
    if forall k | 0 <= k < |Names(rs)| :: Grants(to, Names(rs)[k]) {
      forall key | key in Questions(rs) ensures Decides(to, key) { GrantedAnswers(rs, to, key); }
      SupersetMeans(Questions(rs), to);
    }
  }

  /** A node admitted where it runs, and re-routed with both answers true, is admitted on the target
      as well, with exactly one exception: above `read`, a source that never said whether it
      mediates and a target that says it does not. */
  lemma {:induction false} RerouteAgreesWithAdmission(rs: seq<Requirement>, permission: Permission, from: Row, to: Row)
    requires Admit(Names(rs), permission, Some(from)).None?
    requires RerouteEquivalence(rs, Some(from), to).capabilitySuperset
    requires RerouteEquivalence(rs, Some(from), to).permissionUnchanged
    ensures Admit(Names(rs), permission, Some(to)).None? <==>
              !(permission != ReadOnly && Mediated(from).None? && Mediated(to) == Some(false))
  {
    SupersetAdmitsNames(rs, to);
    AdmitMeans(Names(rs), permission, Some(from));
    AdmitMeans(Names(rs), permission, Some(to));
  }

  /** The exception is reachable: a source that advertises nothing and a target that denies. */
  lemma {:induction false} RerouteOntoUnmediated()
    ensures var from, to := Row(Some(Record(map[]))), Row(Some(Advertise(Path(MediatedExecution), Bool(false))));
            && Admit([], Worktree, Some(from)).None?
            && RerouteEquivalence([], Some(from), to).capabilitySuperset
            && RerouteEquivalence([], Some(from), to).permissionUnchanged
            && Admit([], Worktree, Some(to)) == Some(PermissionUnschedulable)
  {
    AdvertisedIsRead(Path(MediatedExecution), Bool(false));
    var from := Row(Some(Record(map[])));
    assert ValueAt(from.caps.value, Path(MediatedExecution)) == None;
    assert Questions([]) == [];
  }
}
