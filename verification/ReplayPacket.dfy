/** Rebuilding the prompt of an attempt from the ledger (replay-packet.ts) and the store of
    segment bytes, with the packet rules of core's context-packet.ts. */
module ReplayPacket {
  import opened Options
  import opened StableSort

  datatype Kind = PinnedConstraints | PinnedSpec | PinnedPathscope | TaskBrief | Fact
                | ArtifactHandle | Retrieved | HistorySummary | ToolOutput

  /** A segment as the ledger records it: everything but its text. */
  datatype SegmentRecord = SegmentRecord(
    id: string, kind: Kind, sourceEvent: nat, contentHash: string, tokens: nat,
    pinned: bool, compactable: bool)

  datatype Segment = Segment(meta: SegmentRecord, text: string)

  datatype Totals = Totals(tokens: nat, byKind: map<Kind, nat>)

  datatype PacketRecord = PacketRecord(
    segments: seq<SegmentRecord>, totals: Totals, renderedPromptHandle: string,
    pinnedDigests: seq<string>)

  datatype Payload =
    | Built(node: string, attempt: nat, packet: Option<PacketRecord>)  // none: no packet record
    | Other

  datatype LedgerRow = LedgerRow(kind: string, payload: Payload)

  // ---------- Hashes ----------

  /** `hex` stands for sha256Hex. */
  function ContentHash(hex: string -> string, text: string): string { "sha256-" + hex(text) }

  function PromptHandle(hex: string -> string, prompt: string): string { "artifact://" + hex(prompt) }

  ghost predicate Injective(hex: string -> string) {
    forall a, b :: hex(a) == hex(b) ==> a == b
  }

  lemma {:induction false} HashIsInjective(hex: string -> string, a: string, b: string)
    requires Injective(hex)
    ensures ContentHash(hex, a) == ContentHash(hex, b) ==> a == b
    ensures PromptHandle(hex, a) == PromptHandle(hex, b) ==> a == b
  {
    assert ContentHash(hex, a)[7..] == hex(a) && ContentHash(hex, b)[7..] == hex(b);
    assert PromptHandle(hex, a)[11..] == hex(a) && PromptHandle(hex, b)[11..] == hex(b);
  }

  // ---------- Packets ----------

  function PinnedHashes(segments: seq<SegmentRecord>): seq<string> {
    if segments == [] then []
    else (if segments[0].pinned then [segments[0].contentHash] else []) + PinnedHashes(segments[1..])
  }

  /** What the schema asks of a record beyond its shape. The pinned digests are compared sorted. */
  predicate Conforms(r: PacketRecord) {
    && (forall k | 0 <= k < |r.segments| :: r.segments[k].pinned ==> !r.segments[k].compactable)
    && multiset(r.pinnedDigests) == multiset(PinnedHashes(r.segments))
  }

  function TokenSum(segments: seq<SegmentRecord>): nat {
    if segments == [] then 0 else segments[0].tokens + TokenSum(segments[1..])
  }

  function OfKind(segments: seq<SegmentRecord>, kind: Kind): seq<SegmentRecord> {
    if segments == [] then []
    else (if segments[0].kind == kind then [segments[0]] else []) + OfKind(segments[1..], kind)
  }

  const KINDS := [PinnedConstraints, PinnedSpec, PinnedPathscope, TaskBrief, Fact, ArtifactHandle,
                  Retrieved, HistorySummary, ToolOutput]

  /** `packetTotalsAreConsistent`. */
  predicate TotalsConsistent(totals: Totals, segments: seq<SegmentRecord>) {
    && totals.tokens == TokenSum(segments)
    && forall k | 0 <= k < |KINDS| ::
         KINDS[k] in totals.byKind && totals.byKind[KINDS[k]] == TokenSum(OfKind(segments, KINDS[k]))
  }

  lemma {:induction false} TokensAdd(a: seq<SegmentRecord>, b: seq<SegmentRecord>)
    ensures TokenSum(a + b) == TokenSum(a) + TokenSum(b)
    decreases |a|
  {
    if a == [] {
      assert a + b == b;
    } else {
      assert (a + b)[1..] == a[1..] + b;
      TokensAdd(a[1..], b);
    }
  }

  /** What `kinds` sum to in a record's totals. */
  function KindSum(totals: Totals, kinds: seq<Kind>): nat {
    if kinds == [] then 0
    else (if kinds[0] in totals.byKind then totals.byKind[kinds[0]] else 0) + KindSum(totals, kinds[1..])
  }

  function KindTokens(segments: seq<SegmentRecord>, kinds: seq<Kind>): nat {
    if kinds == [] then 0 else TokenSum(OfKind(segments, kinds[0])) + KindTokens(segments, kinds[1..])
  }

  /** What a segment of this kind adds to the kinds listed. */
  function Share(kinds: seq<Kind>, kind: Kind, tokens: nat): nat {
    if kinds == [] then 0 else (if kinds[0] == kind then tokens else 0) + Share(kinds[1..], kind, tokens)
  }

  lemma {:induction false} KindTokensStep(segments: seq<SegmentRecord>, kinds: seq<Kind>)
    requires segments != []
    ensures KindTokens(segments, kinds)
         == KindTokens(segments[1..], kinds) + Share(kinds, segments[0].kind, segments[0].tokens)
    decreases |kinds|
  {
    if kinds != [] {
      KindTokensStep(segments, kinds[1..]);
      OfKindStep(segments, kinds[0]);
    }
  }

  lemma {:induction false} OfKindStep(segments: seq<SegmentRecord>, kind: Kind)
    requires segments != []
    ensures TokenSum(OfKind(segments, kind)) == TokenSum(OfKind(segments[1..], kind))
            + if segments[0].kind == kind then segments[0].tokens else 0
  {
    var first := if segments[0].kind == kind then [segments[0]] else [];
    TokensAdd(first, OfKind(segments[1..], kind));
    if segments[0].kind == kind { assert [segments[0]][1..] == []; }
  }

  /** Every kind is listed once. */
  lemma {:induction false} KindsAreListed(kind: Kind)
    ensures exists k :: 0 <= k < |KINDS| && KINDS[k] == kind
    ensures forall j, k | 0 <= j < k < |KINDS| :: KINDS[j] != KINDS[k]
  {
    match kind
    case PinnedConstraints => assert KINDS[0] == kind;
    case PinnedSpec => assert KINDS[1] == kind;
    case PinnedPathscope => assert KINDS[2] == kind;
    case TaskBrief => assert KINDS[3] == kind;
    case Fact => assert KINDS[4] == kind;
    case ArtifactHandle => assert KINDS[5] == kind;
    case Retrieved => assert KINDS[6] == kind;
    case HistorySummary => assert KINDS[7] == kind;
    case ToolOutput => assert KINDS[8] == kind;
  }

  lemma {:induction false} ShareIsWhole(kinds: seq<Kind>, kind: Kind, tokens: nat)
    requires forall j, k | 0 <= j < k < |kinds| :: kinds[j] != kinds[k]
    ensures Share(kinds, kind, tokens) == if kind in kinds then tokens else 0
  {
    if kinds != [] {
      assert forall k | 0 < k < |kinds| :: kinds[k] == kinds[1..][k - 1];
      assert kinds == [kinds[0]] + kinds[1..];
      ShareIsWhole(kinds[1..], kind, tokens);
    }
  }

  lemma {:induction false} EveryKindCounts(segments: seq<SegmentRecord>)
    ensures KindTokens(segments, KINDS) == TokenSum(segments)
  {
    if segments == [] {
      NothingCounts(KINDS);
    } else {
      EveryKindCounts(segments[1..]);
      KindTokensStep(segments, KINDS);
      KindsAreListed(segments[0].kind);
      ShareIsWhole(KINDS, segments[0].kind, segments[0].tokens);
    }
  }

  lemma {:induction false} NothingCounts(kinds: seq<Kind>)
    ensures KindTokens([], kinds) == 0
  {
    if kinds != [] { NothingCounts(kinds[1..]); }
  }

  lemma {:induction false} KindSumIs(totals: Totals, segments: seq<SegmentRecord>, n: nat)
    requires n <= |KINDS| && TotalsConsistent(totals, segments)
    ensures KindSum(totals, KINDS[n..]) == KindTokens(segments, KINDS[n..])
    decreases |KINDS| - n
  {
    if n < |KINDS| {
      KindSumIs(totals, segments, n + 1);
      assert KINDS[n..][1..] == KINDS[n + 1..];
    }
  }

  /** Consistent totals lose no token: every segment is counted in exactly one kind, and what the kinds
      count is the sum over the segments. */
  lemma {:induction false} TotalsConserve(totals: Totals, segments: seq<SegmentRecord>)
    requires TotalsConsistent(totals, segments)
    ensures totals.tokens == TokenSum(segments) == KindSum(totals, KINDS)
    ensures forall kind :: kind in totals.byKind && totals.byKind[kind] == TokenSum(OfKind(segments, kind))
  {
    EveryKindCounts(segments);
    KindSumIs(totals, segments, 0);
    assert KINDS[0..] == KINDS;
    forall kind: Kind ensures kind in totals.byKind && totals.byKind[kind] == TokenSum(OfKind(segments, kind)) {
      KindsAreListed(kind);
      var k :| 0 <= k < |KINDS| && KINDS[k] == kind;
    }
  }

  /** `renderOrderOf`: pinned segments first, then the rest, each by source event. */
  function RenderOrder(segments: seq<Segment>): seq<Segment> {
    Sort(Filter(segments, (s: Segment) => s.meta.pinned), (s: Segment) => s.meta.sourceEvent)
    + Sort(Filter(segments, (s: Segment) => !s.meta.pinned), (s: Segment) => s.meta.sourceEvent)
  }

  function JoinTexts(segments: seq<Segment>): string {
    if segments == [] then ""
    else if |segments| == 1 then segments[0].text
    else segments[0].text + SEPARATOR + JoinTexts(segments[1..])
  }

  function Render(segments: seq<Segment>): string {
    JoinTexts(RenderOrder(segments))
  }

  /** The segments of one group and one event, in their order. */
  function Peers(segments: seq<Segment>, pinned: bool, event: int): seq<Segment> {
    if segments == [] then []
    else (if segments[0].meta.pinned == pinned && segments[0].meta.sourceEvent == event then [segments[0]] else [])
         + Peers(segments[1..], pinned, event)
  }

  lemma {:induction false} PeersAppend(xs: seq<Segment>, ys: seq<Segment>, pinned: bool, event: int)
    ensures Peers(xs + ys, pinned, event) == Peers(xs, pinned, event) + Peers(ys, pinned, event)
    decreases |xs|
  {
    if xs == [] {
      assert xs + ys == ys;
    } else {
      assert (xs + ys)[1..] == xs[1..] + ys;
      PeersAppend(xs[1..], ys, pinned, event);
    }
  }

  /** In a list of one group, the peers are those of one key. */
  lemma {:induction false} PeersOfGroup(segments: seq<Segment>, key: Segment -> int, pinned: bool, group: bool,
        event: int)
    requires forall k | 0 <= k < |segments| :: segments[k].meta.pinned == group
    requires forall s :: key(s) == s.meta.sourceEvent
    ensures Peers(segments, pinned, event) == if pinned == group then Class(segments, key, event) else []
  {
    if segments != [] {
      assert forall k | 0 <= k < |segments| - 1 :: segments[1..][k] == segments[k + 1];
      PeersOfGroup(segments[1..], key, pinned, group, event);
    }
  }

  /** Sieving one group out keeps its peers, in their order. */
  lemma {:induction false} PeersOfSieve(segments: seq<Segment>, keep: Segment -> bool, pinned: bool, group: bool,
        event: int)
    requires forall s :: keep(s) <==> s.meta.pinned == group
    ensures Peers(Filter(segments, keep), pinned, event)
         == if pinned == group then Peers(segments, pinned, event) else []
  {
    if segments != [] {
      PeersOfSieve(segments[1..], keep, pinned, group, event);
      PeersAppend(if keep(segments[0]) then [segments[0]] else [], Filter(segments[1..], keep), pinned, event);
      assert [segments[0]][1..] == [];
    }
  }

  /** One group sorted: its segments and no others, by event, those of one event in their order. */
  lemma {:induction false} GroupRenders(segments: seq<Segment>, keep: Segment -> bool, group: bool, key: Segment -> int)
    requires forall s :: keep(s) <==> s.meta.pinned == group
    requires forall s :: key(s) == s.meta.sourceEvent
    ensures var sorted := Sort(Filter(segments, keep), key);
            && multiset(sorted) == multiset(Filter(segments, keep)) && Sorted(sorted, key)
            && (forall k | 0 <= k < |sorted| :: sorted[k].meta.pinned == group)
            && forall pinned, event ::
                 Peers(sorted, pinned, event) == if pinned == group then Peers(segments, pinned, event) else []
  {
    var own := Filter(segments, keep);
    var sorted := Sort(own, key);
    FilterHolds(segments, keep);
    SortSorts(own, key);
    forall k | 0 <= k < |sorted| ensures sorted[k].meta.pinned == group { assert sorted[k] in sorted; }
    forall k | 0 <= k < |own| ensures own[k].meta.pinned == group { assert own[k] in own; }
    forall pinned, event
      ensures Peers(sorted, pinned, event) == if pinned == group then Peers(segments, pinned, event) else []
    {
      PeersOfGroup(sorted, key, pinned, group, event);
      PeersOfGroup(own, key, pinned, group, event);
      PeersOfSieve(segments, keep, pinned, group, event);
    }
  }

  predicate Before(a: SegmentRecord, b: SegmentRecord) {
    (b.pinned ==> a.pinned) && (a.pinned == b.pinned ==> a.sourceEvent <= b.sourceEvent)
  }

  /** Rendering shows every segment as often as it is there, pinned ones first, each group in the order of
      events, and those of one event in their own order. */
  lemma {:induction false} RenderShowsAll(segments: seq<Segment>)
    ensures multiset(RenderOrder(segments)) == multiset(segments)
    ensures forall j, k | 0 <= j < k < |RenderOrder(segments)| ::
              Before(RenderOrder(segments)[j].meta, RenderOrder(segments)[k].meta)
    ensures forall pinned, event :: Peers(RenderOrder(segments), pinned, event) == Peers(segments, pinned, event)
  {
    var isPinned, isNot := (s: Segment) => s.meta.pinned, (s: Segment) => !s.meta.pinned;
    var key := (s: Segment) => s.meta.sourceEvent;
    GroupRenders(segments, isPinned, true, key);
    GroupRenders(segments, isNot, false, key);
    FilterSplits(segments, isPinned, isNot);
    var a, b := Sort(Filter(segments, isPinned), key), Sort(Filter(segments, isNot), key);
    assert RenderOrder(segments) == a + b;
    forall pinned, event ensures Peers(a + b, pinned, event) == Peers(segments, pinned, event) {
      PeersAppend(a, b, pinned, event);
    }
  }

  // ---------- The prompt ----------

  const SEPARATOR := "\n\n"

  /** Where the text of the `k`th segment starts: behind the texts before it, each with a separator. */
  function StartOf(segments: seq<Segment>, k: nat): (n: nat)
    requires k <= |segments|
    ensures k > 0 ==> n >= |SEPARATOR|
  {
    if k == 0 then 0 else StartOf(segments, k - 1) + |segments[k - 1].text| + |SEPARATOR|
  }

  predicate TextAt(prompt: string, i: nat, text: string) {
    i + |text| <= |prompt| && prompt[i..i + |text|] == text
  }

  /** The `k`th text stands whole where it starts, behind a separator if it is not the first. */
  predicate StandsAt(prompt: string, segments: seq<Segment>, k: nat)
    requires k < |segments|
  {
    && TextAt(prompt, StartOf(segments, k), segments[k].text)
    && (k > 0 ==> TextAt(prompt, StartOf(segments, k) - |SEPARATOR|, SEPARATOR))
  }

  /** `prompt` is the texts of the segments, whole and in order, with one blank line between neighbours and
      nothing else. */
  predicate Joins(prompt: string, segments: seq<Segment>) {
    && |prompt| == (if segments == [] then 0 else StartOf(segments, |segments|) - |SEPARATOR|)
    && forall k: nat | k < |segments| :: StandsAt(prompt, segments, k)
  }

  lemma {:induction false} StartOfRest(segments: seq<Segment>, k: nat)
    requires 0 < k <= |segments|
    ensures StartOf(segments, k) == |segments[0].text| + |SEPARATOR| + StartOf(segments[1..], k - 1)
  {
    if k > 1 { StartOfRest(segments, k - 1); }
  }

  lemma {:induction false} TextShifts(front: string, rest: string, i: nat, text: string)
    ensures TextAt(front + rest, |front| + i, text) <==> TextAt(rest, i, text)
  {
    if i + |text| <= |rest| {
      assert (front + rest)[|front| + i..|front| + i + |text|] == rest[i..i + |text|];
    }
  }

  /** Behind the first text and its separator, what stands is what stands in the rest. */
  lemma {:induction false} StandsInRest(front: string, rest: string, segments: seq<Segment>, k: nat)
    requires 0 < k < |segments| && front == segments[0].text + SEPARATOR
    ensures StandsAt(front + rest, segments, k) <==> StandsAt(rest, segments[1..], k - 1)
  {
    StartOfRest(segments, k);
    var start := StartOf(segments[1..], k - 1);
    TextShifts(front, rest, start, segments[k].text);
    if k > 1 {
      TextShifts(front, rest, start - |SEPARATOR|, SEPARATOR);
    } else {
      assert (front + rest)[|segments[0].text|..|front|] == SEPARATOR;
    }
  }

  lemma {:induction false} FirstStands(front: string, rest: string, segments: seq<Segment>)
    requires segments != [] && front == segments[0].text + SEPARATOR
    ensures StandsAt(front + rest, segments, 0)
  {
    assert (front + rest)[0..|segments[0].text|] == segments[0].text;
  }

  lemma {:induction false} JoinsMore(front: string, rest: string, segments: seq<Segment>)
    requires |segments| > 1 && front == segments[0].text + SEPARATOR
    ensures Joins(front + rest, segments) <==> Joins(rest, segments[1..])
  {
    StartOfRest(segments, |segments|);
    FirstStands(front, rest, segments);
    forall k: nat | 0 < k < |segments|
      ensures StandsAt(front + rest, segments, k) <==> StandsAt(rest, segments[1..], k - 1)
    {
      StandsInRest(front, rest, segments, k);
    }
    if Joins(front + rest, segments) {
      forall k: nat | k < |segments[1..]| ensures StandsAt(rest, segments[1..], k) {
        assert StandsAt(front + rest, segments, k + 1);
      }
    }
  }

  /** The texts joined so, and no others. */
  lemma {:induction false} JoinsExactly(prompt: string, segments: seq<Segment>)
    ensures Joins(prompt, segments) <==> prompt == JoinTexts(segments)
    decreases |segments|
  {
    if |segments| == 1 {
      OneJoins(prompt, segments);
    } else if |segments| > 1 {
      var front := segments[0].text + SEPARATOR;
      if Joins(prompt, segments) { FrontStands(prompt, segments); }
      if front <= prompt {
        var rest := prompt[|front|..];
        assert prompt == front + rest;
        JoinsMore(front, rest, segments);
        JoinsExactly(rest, segments[1..]);
        assert front + JoinTexts(segments[1..]) == JoinTexts(segments);
      } else {
        assert front <= JoinTexts(segments);
      }
    }
  }

  lemma {:induction false} OneJoins(prompt: string, segments: seq<Segment>)
    requires |segments| == 1
    ensures Joins(prompt, segments) <==> prompt == segments[0].text
  {
    assert StartOf(segments, 0) == 0;
    assert StartOf(segments, 1) == |segments[0].text| + |SEPARATOR|;
    if Joins(prompt, segments) {
      assert StandsAt(prompt, segments, 0);
      assert prompt[0..|prompt|] == prompt;
    }
  }

  lemma {:induction false} FrontStands(prompt: string, segments: seq<Segment>)
    requires |segments| > 1 && Joins(prompt, segments)
    ensures segments[0].text + SEPARATOR <= prompt
  {
    var n := |segments[0].text|;
    assert StandsAt(prompt, segments, 0) && StandsAt(prompt, segments, 1);
    assert StartOf(segments, 0) == 0 && StartOf(segments, 1) == n + |SEPARATOR|;
    assert prompt[..n + |SEPARATOR|] == prompt[0..n] + prompt[n..n + |SEPARATOR|];
  }

  // ---------- Reconstruction ----------

  datatype Failure = NoPacketRecorded | NotAPacketRecord | SegmentsBroken(ids: seq<string>)
                   | TotalsDisagree | PromptDisagrees

  datatype Rebuilt =
    | Refused(why: Failure)
    | Ok(packet: PacketRecord, recorded: PacketRecord, segments: seq<Segment>, prompt: string)

  /** The last packet the history records for an attempt. */
  function LastBuilt(history: seq<LedgerRow>, node: string, attempt: nat): Option<Option<PacketRecord>> {
    if history == [] then None
    else
      var row := history[|history| - 1];
      if row.kind == "context.built" && row.payload.Built? && row.payload.node == node && row.payload.attempt == attempt
      then Some(row.payload.packet)
      else LastBuilt(history[..|history| - 1], node, attempt)
  }

  predicate BuiltFor(row: LedgerRow, node: string, attempt: nat) {
    row.kind == "context.built" && row.payload.Built? && row.payload.node == node && row.payload.attempt == attempt
  }

  /** Row `k` is the last that records a packet for the attempt. */
  predicate IsLastBuilt(history: seq<LedgerRow>, node: string, attempt: nat, k: nat) {
    && k < |history| && BuiltFor(history[k], node, attempt)
    && forall j | k < j < |history| :: !BuiltFor(history[j], node, attempt)
  }

  lemma {:induction false} LastBuiltIsLast(history: seq<LedgerRow>, node: string, attempt: nat)
    ensures LastBuilt(history, node, attempt).None? <==>
              forall k | 0 <= k < |history| :: !BuiltFor(history[k], node, attempt)
    ensures forall k: nat | IsLastBuilt(history, node, attempt, k) ::
              LastBuilt(history, node, attempt) == Some(history[k].payload.packet)
  {
    if history != [] {
      var n := |history| - 1;
      LastBuiltIsLast(history[..n], node, attempt);
      if !BuiltFor(history[n], node, attempt) {
        forall k: nat | IsLastBuilt(history, node, attempt, k) ensures IsLastBuilt(history[..n], node, attempt, k) { }
        assert forall k | 0 <= k < n :: history[..n][k] == history[k];
      }
    }
  }

  type Store = string -> Option<string>

  predicate Intact(hex: string -> string, store: Store, s: SegmentRecord) {
    store(s.contentHash).Some? && ContentHash(hex, store(s.contentHash).value) == s.contentHash
  }

  function Texts(hex: string -> string, store: Store, segments: seq<SegmentRecord>): seq<Segment> {
    if segments == [] then []
    else (if Intact(hex, store, segments[0]) then [Segment(segments[0], store(segments[0].contentHash).value)] else [])
         + Texts(hex, store, segments[1..])
  }

  function Broken(hex: string -> string, store: Store, segments: seq<SegmentRecord>): seq<string> {
    if segments == [] then []
    else (if Intact(hex, store, segments[0]) then [] else [segments[0].id]) + Broken(hex, store, segments[1..])
  }

  function Metas(segments: seq<Segment>): (r: seq<SegmentRecord>)
    ensures |r| == |segments| && forall k | 0 <= k < |segments| :: r[k] == segments[k].meta
  {
    seq(|segments|, k requires 0 <= k < |segments| => segments[k].meta)
  }

  function Reconstruct(hex: string -> string, history: seq<LedgerRow>, node: string, attempt: nat,
      store: Store): Rebuilt {
    var last := LastBuilt(history, node, attempt);
    if last.None? then Refused(NoPacketRecorded)
    else if last.value.None? || !Conforms(last.value.value) then Refused(NotAPacketRecord)
    else
      var recorded := last.value.value;
      var segments := Texts(hex, store, recorded.segments);
      var broken := Broken(hex, store, recorded.segments);
      if broken != [] then Refused(SegmentsBroken(broken))
      else if !TotalsConsistent(recorded.totals, Metas(segments)) then Refused(TotalsDisagree)
      else if PromptHandle(hex, Render(segments)) != recorded.renderedPromptHandle then Refused(PromptDisagrees)
      else Ok(PacketRecord(Metas(segments), recorded.totals, PromptHandle(hex, Render(segments)),
                           PinnedHashes(Metas(segments))),
              recorded, segments, Render(segments))
  }

  /** `recordedPacketFor`'s filter, as a scan that keeps the last match. */
  method FindLastBuilt(history: seq<LedgerRow>, node: string, attempt: nat)
    returns (last: Option<Option<PacketRecord>>)
    ensures last == LastBuilt(history, node, attempt)
  {
    last := None;
    for n := 0 to |history|
      invariant last == LastBuilt(history[..n], node, attempt)
    {
      assert history[..n + 1][..n] == history[..n];
      var row := history[n];
      if row.kind == "context.built" && row.payload.Built?
         && row.payload.node == node && row.payload.attempt == attempt {
        last := Some(row.payload.packet);
      }
    }
    assert history[..|history|] == history;
  }

  lemma {:induction false} TextsStep(hex: string -> string, store: Store, recorded: seq<SegmentRecord>, n: nat,
                  segments: seq<Segment>, broken: seq<string>)
    requires n < |recorded|
    ensures Intact(hex, store, recorded[n]) ==>
              var one := Segment(recorded[n], store(recorded[n].contentHash).value);
              && (segments + [one]) + Texts(hex, store, recorded[n + 1..])
                  == segments + Texts(hex, store, recorded[n..])
              && Broken(hex, store, recorded[n + 1..]) == Broken(hex, store, recorded[n..])
    ensures !Intact(hex, store, recorded[n]) ==>
              && (broken + [recorded[n].id]) + Broken(hex, store, recorded[n + 1..])
                  == broken + Broken(hex, store, recorded[n..])
              && Texts(hex, store, recorded[n + 1..]) == Texts(hex, store, recorded[n..])
  {
    assert recorded[n..][1..] == recorded[n + 1..];
  }

  method CollectTexts(hex: string -> string, recorded: seq<SegmentRecord>, store: Store)
    returns (segments: seq<Segment>, broken: seq<string>)
    ensures segments == Texts(hex, store, recorded)
    ensures broken == Broken(hex, store, recorded)
  {
    segments, broken := [], [];
    for n := 0 to |recorded|
      invariant segments + Texts(hex, store, recorded[n..]) == Texts(hex, store, recorded)
      invariant broken + Broken(hex, store, recorded[n..]) == Broken(hex, store, recorded)
    {
      var segment := recorded[n];
      TextsStep(hex, store, recorded, n, segments, broken);
      var text := store(segment.contentHash);
      if text.None? {
        broken := broken + [segment.id];
      } else if ContentHash(hex, text.value) != segment.contentHash {
        broken := broken + [segment.id];
      } else {
        segments := segments + [Segment(segment, text.value)];
      }
    }
    assert recorded[|recorded|..] == [];
  }

  method ReconstructPacket(hex: string -> string, history: seq<LedgerRow>, node: string, attempt: nat, store: Store)
    returns (r: Rebuilt)
    ensures r == Reconstruct(hex, history, node, attempt, store)
  {
    var last := FindLastBuilt(history, node, attempt);
    if last.None? { return Refused(NoPacketRecorded); }
    if last.value.None? || !Conforms(last.value.value) { return Refused(NotAPacketRecord); }
    var recorded := last.value.value;

    var segments, broken := CollectTexts(hex, recorded.segments, store);
    if |broken| > 0 { return Refused(SegmentsBroken(broken)); }
    if !TotalsConsistent(recorded.totals, Metas(segments)) { return Refused(TotalsDisagree); }
    var prompt := Render(segments);
    var handle := PromptHandle(hex, prompt);
    if handle != recorded.renderedPromptHandle { return Refused(PromptDisagrees); }
    return Ok(PacketRecord(Metas(segments), recorded.totals, handle, PinnedHashes(Metas(segments))),
              recorded, segments, prompt);
  }

  // ---------- The round trip ----------

  /** A packet as a builder records it: digests, totals and the handle of what it rendered. */
  ghost predicate RecordsPacket(hex: string -> string, r: PacketRecord, segments: seq<Segment>) {
    && r.segments == Metas(segments) && Conforms(r)
    && (forall k | 0 <= k < |segments| :: segments[k].meta.contentHash == ContentHash(hex, segments[k].text))
    && TotalsConsistent(r.totals, r.segments)
    && r.renderedPromptHandle == PromptHandle(hex, Render(segments))
  }

  /** Every segment's bytes are where its digest says. */
  predicate Holds(store: Store, segments: seq<Segment>) {
    forall k | 0 <= k < |segments| :: store(segments[k].meta.contentHash) == Some(segments[k].text)
  }

  lemma {:induction false} IntactTexts(hex: string -> string, store: Store, metas: seq<SegmentRecord>,
      segments: seq<Segment>)
    requires Injective(hex) && metas == Metas(segments)
    requires forall k | 0 <= k < |segments| :: segments[k].meta.contentHash == ContentHash(hex, segments[k].text)
    ensures Broken(hex, store, metas) == [] <==> Holds(store, segments)
    ensures Broken(hex, store, metas) == [] ==> Texts(hex, store, metas) == segments
    decreases |segments|
  {
    if segments != [] {
      var rest := segments[1..];
      assert metas[1..] == Metas(rest);
      IntactTexts(hex, store, metas[1..], rest);
      var found := store(segments[0].meta.contentHash);
      if found.Some? { HashIsInjective(hex, found.value, segments[0].text); }
      assert Intact(hex, store, metas[0]) <==> found == Some(segments[0].text);
      assert Holds(store, segments) <==> found == Some(segments[0].text) && Holds(store, rest) by {
        forall k | 0 <= k < |rest| ensures segments[k + 1] == rest[k] { }
        if found == Some(segments[0].text) && Holds(store, rest) {
          forall k | 0 <= k < |segments| ensures store(segments[k].meta.contentHash) == Some(segments[k].text) {
            if k > 0 { assert rest[k - 1] == segments[k]; }
          }
        }
        if Holds(store, segments) {
          forall k | 0 <= k < |rest| ensures store(rest[k].meta.contentHash) == Some(rest[k].text) {
            assert rest[k] == segments[k + 1];
          }
        }
      }
      assert segments == [segments[0]] + rest;
    }
  }

  /** A packet that was recorded comes back, its segments and its prompt, exactly when the store
      still holds the bytes of every segment; and whatever the store has become, what comes back
      is never another prompt. */
  lemma {:induction false} ReplayIsExact(hex: string -> string, history: seq<LedgerRow>, node: string, attempt: nat,
                      recorded: PacketRecord, segments: seq<Segment>, store: Store)
    requires Injective(hex) && RecordsPacket(hex, recorded, segments)
    requires LastBuilt(history, node, attempt) == Some(Some(recorded))
    ensures var r := Reconstruct(hex, history, node, attempt, store);
            && (r.Ok? <==> Holds(store, segments))
            && (r.Ok? ==> r.segments == segments && Joins(r.prompt, RenderOrder(segments)) && r.recorded == recorded)
            && (r.Refused? ==> r.why.SegmentsBroken?)
  {
    IntactTexts(hex, store, recorded.segments, segments);
    JoinsExactly(Render(segments), RenderOrder(segments));
  }

  predicate AllIntact(hex: string -> string, store: Store, segments: seq<SegmentRecord>) {
    forall k | 0 <= k < |segments| :: Intact(hex, store, segments[k])
  }

  lemma {:induction false} BrokenNames(hex: string -> string, store: Store, segments: seq<SegmentRecord>)
    ensures Broken(hex, store, segments) == [] <==> AllIntact(hex, store, segments)
    ensures forall id :: id in Broken(hex, store, segments) <==>
              exists k :: 0 <= k < |segments| && segments[k].id == id && !Intact(hex, store, segments[k])
  {
    if segments != [] {
      BrokenNames(hex, store, segments[1..]);
      assert forall k | 0 < k < |segments| :: segments[k] == segments[1..][k - 1];
      assert segments == [segments[0]] + segments[1..];
      if AllIntact(hex, store, segments[1..]) && Intact(hex, store, segments[0]) {
        forall k | 0 <= k < |segments| ensures Intact(hex, store, segments[k]) {
          if k > 0 { assert segments[k] == segments[1..][k - 1]; }
        }
      }
      if AllIntact(hex, store, segments) {
        forall k | 0 <= k < |segments[1..]| ensures Intact(hex, store, segments[1..][k]) {
          assert segments[1..][k] == segments[k + 1];
        }
      }
    }
  }

  lemma {:induction false} TextsAre(hex: string -> string, store: Store, segments: seq<SegmentRecord>)
    requires AllIntact(hex, store, segments)
    ensures var texts := Texts(hex, store, segments);
            && |texts| == |segments| && Metas(texts) == segments
            && forall k | 0 <= k < |texts| :: store(segments[k].contentHash) == Some(texts[k].text)
  {
    BrokenNames(hex, store, segments);
    TextsKeepMetas(hex, store, segments);
    if segments != [] {
      forall k | 0 <= k < |segments[1..]| ensures Intact(hex, store, segments[1..][k]) {
        assert segments[1..][k] == segments[k + 1];
      }
      TextsAre(hex, store, segments[1..]);
      var texts := Texts(hex, store, segments);
      assert texts[1..] == Texts(hex, store, segments[1..]);
      forall k | 0 <= k < |texts| ensures store(segments[k].contentHash) == Some(texts[k].text) {
        if k > 0 { assert texts[k] == texts[1..][k - 1] && segments[k] == segments[1..][k - 1]; }
      }
    }
  }

  /** The schema accepts the record, these are its segments, every one's bytes are held and hash to its
      digest, the totals add up, and the bytes joined in render order are a prompt that hashes to the handle. */
  predicate Rebuilds(hex: string -> string, store: Store, r: PacketRecord, segments: seq<Segment>, prompt: string) {
    && Conforms(r) && AllIntact(hex, store, r.segments) && TotalsConsistent(r.totals, r.segments)
    && Metas(segments) == r.segments && Holds(store, segments)
    && Joins(prompt, RenderOrder(segments)) && PromptHandle(hex, prompt) == r.renderedPromptHandle
  }

  /** A packet is rebuilt exactly where the last one recorded for the attempt can be. */
  lemma {:induction false} RebuiltExactly(hex: string -> string, history: seq<LedgerRow>, node: string, attempt: nat,
                               store: Store)
    ensures Reconstruct(hex, history, node, attempt, store).Ok? <==>
            exists k: nat, segments: seq<Segment>, prompt ::
              && IsLastBuilt(history, node, attempt, k) && history[k].payload.packet.Some?
              && Rebuilds(hex, store, history[k].payload.packet.value, segments, prompt)
  {
    LastBuiltIsLast(history, node, attempt);
    if Reconstruct(hex, history, node, attempt, store).Ok? {
      var k := LastBuiltAt(history, node, attempt);
      RebuiltIs(hex, history[k].payload.packet.value, store);
    }
    if k: nat, segments: seq<Segment>, prompt :|
         IsLastBuilt(history, node, attempt, k) && history[k].payload.packet.Some?
         && Rebuilds(hex, store, history[k].payload.packet.value, segments, prompt)
    {
      SegmentsAre(hex, store, history[k].payload.packet.value, segments);
      JoinsExactly(prompt, RenderOrder(segments));
    }
  }

  lemma {:induction false} LastBuiltAt(history: seq<LedgerRow>, node: string, attempt: nat) returns (k: nat)
    requires LastBuilt(history, node, attempt).Some?
    ensures IsLastBuilt(history, node, attempt, k)
    ensures LastBuilt(history, node, attempt) == Some(history[k].payload.packet)
  {
    k := |history| - 1;
    if !BuiltFor(history[k], node, attempt) { k := LastBuiltAt(history[..k], node, attempt); }
  }

  lemma {:induction false} RebuiltIs(hex: string -> string, r: PacketRecord, store: Store)
    requires Conforms(r) && Broken(hex, store, r.segments) == []
    requires TotalsConsistent(r.totals, Metas(Texts(hex, store, r.segments)))
    requires PromptHandle(hex, Render(Texts(hex, store, r.segments))) == r.renderedPromptHandle
    ensures Rebuilds(hex, store, r, Texts(hex, store, r.segments), Render(Texts(hex, store, r.segments)))
  {
    BrokenNames(hex, store, r.segments);
    TextsAre(hex, store, r.segments);
    JoinsExactly(Render(Texts(hex, store, r.segments)), RenderOrder(Texts(hex, store, r.segments)));
  }

  lemma {:induction false} SegmentsAre(hex: string -> string, store: Store, r: PacketRecord, segments: seq<Segment>)
    requires AllIntact(hex, store, r.segments) && Metas(segments) == r.segments && Holds(store, segments)
    ensures Broken(hex, store, r.segments) == [] && Texts(hex, store, r.segments) == segments
  {
    BrokenNames(hex, store, r.segments);
    TextsAre(hex, store, r.segments);
    var texts := Texts(hex, store, r.segments);
    forall k | 0 <= k < |texts| ensures texts[k] == segments[k] {
      assert Metas(texts)[k] == Metas(segments)[k];
      assert store(segments[k].meta.contentHash) == Some(segments[k].text);
    }
  }

  /** The same without asking that the record was honest: a record of any segments at all, over
      any store, is refused or renders to the very bytes its handle was computed from. */
  lemma {:induction false} ReplayNeverSubstitutes(hex: string -> string, history: seq<LedgerRow>, node: string,
                               attempt: nat, prompt: string, store: Store)
    requires Injective(hex)
    requires Reconstruct(hex, history, node, attempt, store).Ok?
    requires Reconstruct(hex, history, node, attempt, store).recorded.renderedPromptHandle == PromptHandle(hex, prompt)
    ensures Reconstruct(hex, history, node, attempt, store).prompt == prompt
  {
    HashIsInjective(hex, Reconstruct(hex, history, node, attempt, store).prompt, prompt);
  }

  lemma {:induction false} MetasPush(first: Segment, rest: seq<Segment>)
    ensures Metas([first] + rest) == [first.meta] + Metas(rest)
  {
  }

  lemma {:induction false} TextsKeepMetas(hex: string -> string, store: Store, metas: seq<SegmentRecord>)
    requires Broken(hex, store, metas) == []
    ensures Metas(Texts(hex, store, metas)) == metas
    decreases |metas|
  {
    if metas != [] {
      TextsKeepMetas(hex, store, metas[1..]);
      var rest := Texts(hex, store, metas[1..]);
      MetasPush(Segment(metas[0], store(metas[0].contentHash).value), rest);
      assert metas == [metas[0]] + metas[1..];
    }
  }

  /** The rebuilt packet always passes the schema again, so re-parsing it cannot fail; and it is
      the recorded packet exactly when the record listed its pinned digests in segment order. */
  lemma {:induction false} RebuiltPacket(hex: string -> string, history: seq<LedgerRow>, node: string,
      attempt: nat, store: Store)
    requires Reconstruct(hex, history, node, attempt, store).Ok?
    ensures var r := Reconstruct(hex, history, node, attempt, store);
            && Conforms(r.packet)
            && r.packet == r.recorded.(pinnedDigests := PinnedHashes(r.recorded.segments))
            && (r.packet == r.recorded <==> r.recorded.pinnedDigests == PinnedHashes(r.recorded.segments))
  {
    var r := Reconstruct(hex, history, node, attempt, store);
    TextsKeepMetas(hex, store, r.recorded.segments);
  }

  function Pin(hex: string -> string, id: string, sourceEvent: nat, text: string): Segment {
    Segment(SegmentRecord(id, PinnedSpec, sourceEvent, ContentHash(hex, text), 1, true, false), text)
  }

  const PAIR_TOTALS := Totals(2, map kind | kind in KINDS :: if kind == PinnedSpec then 2 else 0)

  /** Two pinned segments of a token each, recorded with their digests the other way round. */
  function SwappedRecord(hex: string -> string, a: Segment, b: Segment): PacketRecord {
    PacketRecord(Metas([a, b]),
                 PAIR_TOTALS,
                 PromptHandle(hex, Render([a, b])), [b.meta.contentHash, a.meta.contentHash])
  }

  lemma {:induction false} PairOf(a: SegmentRecord, b: SegmentRecord, kind: Kind)
    requires a.kind == PinnedSpec && b.kind == PinnedSpec
    ensures TokenSum([a, b]) == a.tokens + b.tokens
    ensures OfKind([a, b], kind) == if kind == PinnedSpec then [a, b] else []
  {
    assert [a, b][1..] == [b] && [b][1..] == [];
    assert TokenSum([b]) == b.tokens;
    assert OfKind([b], kind) == if kind == PinnedSpec then [b] else [];
  }

  lemma {:induction false} PairTotals(a: SegmentRecord, b: SegmentRecord)
    requires a.kind == PinnedSpec && b.kind == PinnedSpec && a.tokens == 1 && b.tokens == 1
    ensures TotalsConsistent(PAIR_TOTALS, [a, b])
  {
    forall k | 0 <= k < |KINDS|
      ensures KINDS[k] in PAIR_TOTALS.byKind && PAIR_TOTALS.byKind[KINDS[k]] == TokenSum(OfKind([a, b], KINDS[k]))
    {
      PairOf(a, b, KINDS[k]);
      assert KINDS[k] in KINDS;
    }
    PairOf(a, b, PinnedSpec);
  }

  lemma {:induction false} PairDigests(a: SegmentRecord, b: SegmentRecord)
    requires a.pinned && b.pinned
    ensures PinnedHashes([a, b]) == [a.contentHash, b.contentHash]
  {
    assert [a, b][1..] == [b] && [b][1..] == [];
    assert PinnedHashes([b]) == [b.contentHash];
  }

  lemma {:induction false} SwappedConforms(r: PacketRecord, a: SegmentRecord, b: SegmentRecord)
    requires r.segments == [a, b] && a.pinned && b.pinned && !a.compactable && !b.compactable
    requires r.pinnedDigests == [b.contentHash, a.contentHash]
    ensures Conforms(r)
  {
    PairDigests(a, b);
  }

  lemma {:induction false} SwappedRecords(hex: string -> string, x: string, y: string)
    ensures var a, b := Pin(hex, "a", 1, x), Pin(hex, "b", 2, y); var r := SwappedRecord(hex, a, b);
            && RecordsPacket(hex, r, [a, b])
            && PinnedHashes(r.segments) == [a.meta.contentHash, b.meta.contentHash]
  {
    var a, b := Pin(hex, "a", 1, x), Pin(hex, "b", 2, y);
    assert SwappedRecord(hex, a, b).segments == [a.meta, b.meta];
    PairTotals(a.meta, b.meta);
    PairDigests(a.meta, b.meta);
    SwappedConforms(SwappedRecord(hex, a, b), a.meta, b.meta);
  }

  /** Where that fails: such a record is accepted and rebuilt, and the packet rebuilt is not the record. */
  lemma {:induction false} DigestOrderIsLost(hex: string -> string, node: string, attempt: nat)
    requires Injective(hex)
    ensures var a, b := Pin(hex, "a", 1, "x"), Pin(hex, "b", 2, "y");
            var row := LedgerRow("context.built", Built(node, attempt, Some(SwappedRecord(hex, a, b))));
            var store := (hash: string) => if hash == ContentHash(hex, "x") then Some("x")
                                           else if hash == ContentHash(hex, "y") then Some("y") else None;
            var r := Reconstruct(hex, [row], node, attempt, store);
            r.Ok? && r.recorded == SwappedRecord(hex, a, b) && r.packet != r.recorded
  {
    var a, b := Pin(hex, "a", 1, "x"), Pin(hex, "b", 2, "y");
    var recorded := SwappedRecord(hex, a, b);
    var history := [LedgerRow("context.built", Built(node, attempt, Some(recorded)))];
    var store: Store := (hash: string) => if hash == ContentHash(hex, "x") then Some("x")
                                          else if hash == ContentHash(hex, "y") then Some("y") else None;
    assert "x"[0] != "y"[0];
    HashIsInjective(hex, "x", "y");
    SwappedRecords(hex, "x", "y");
    ReplayIsExact(hex, history, node, attempt, recorded, [a, b], store);
    RebuiltPacket(hex, history, node, attempt, store);
  }
}
