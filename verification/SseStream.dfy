/** The server-sent-events client (e2e/support/streams.ts): text in any chunks in, events out. */
module SseStream {
  import opened Options
  import opened Lines

  datatype SseEvent = SseEvent(event: string, data: string, id: Option<string>)

  // ---------- One block ----------

  datatype Fields = Fields(event: string, id: Option<string>, data: seq<string>, sawField: bool)

  const NoFields := Fields("message", None, [], false)

  /** `replace(/^ /, '')`: one leading space, at most. */
  function Unspaced(value: string): string {
    if value != "" && value[0] == ' ' then value[1..] else value
  }

  function SetField(f: Fields, field: string, value: string): Fields {
    var g := f.(sawField := true);
    if field == "event" then g.(event := value)
    else if field == "data" then g.(data := g.data + [value])
    else if field == "id" then g.(id := Some(value))
    else g
  }

  function Absorb(f: Fields, line: string): Fields {
    if line != "" && line[0] == ':' then f
    else
      var colon := NextSep(line, ':', 0);
      if colon == |line| then f else SetField(f, line[..colon], Unspaced(line[colon + 1..]))
  }

  /** The fields of a block's first `n` lines. */
  function AbsorbTo(lines: seq<string>, n: nat): Fields
    requires n <= |lines|
  {
    if n == 0 then NoFields else Absorb(AbsorbTo(lines, n - 1), lines[n - 1])
  }

  function EventOf(f: Fields): Option<SseEvent> {
    if f.sawField then Some(SseEvent(f.event, if f.data == [] then "" else Join(f.data, '\n'), f.id)) else None
  }

  function Parse(block: string): Option<SseEvent> {
    var lines := Split(block, '\n');
    EventOf(AbsorbTo(lines, |lines|))
  }

  method ParseBlock(block: string) returns (event: Option<SseEvent>)
    ensures event == Parse(block)
  {
    var lines := Split(block, '\n');
    var fields := NoFields;
    for n := 0 to |lines|
      invariant fields == AbsorbTo(lines, n)
    {
      var line := lines[n];
      if line != "" && line[0] == ':' { continue; }
      var colon := NextSep(line, ':', 0);
      if colon == |line| { continue; }
      fields := SetField(fields, line[..colon], Unspaced(line[colon + 1..]));
    }
    return EventOf(fields);
  }

  // ---------- What a block says ----------

  /** A comment, and a line without a colon, say nothing. */
  predicate SaysNothing(line: string) { line == "" || line[0] == ':' || ':' !in line }

  /** The line sets this field: its name stands before the first colon. */
  predicate Sets(line: string, field: string) {
    !SaysNothing(line) && ':' !in field && field + ":" <= line
  }

  /** To what: what stands behind the colon, without one leading space. */
  function ValueOf(line: string, field: string): string
    requires Sets(line, field)
  {
    var rest := line[|field| + 1..];
    if rest != "" && rest[0] == ' ' then rest[1..] else rest
  }

  lemma {:induction false} OneName(line: string, field: string, colon: nat)
    requires colon < |line| && line[colon] == ':' && line[0] != ':'
    requires forall j | 0 <= j < colon :: line[j] != ':'
    ensures Sets(line, field) <==> field == line[..colon]
  {
    if Sets(line, field) {
      assert line[|field|] == (field + ":")[|field|];
      assert forall j | 0 <= j < |field| :: line[j] == (field + ":")[j] && field[j] != ':';
      assert |field| == colon;
      assert line[..colon] == (field + ":")[..colon];
    }
  }

  lemma {:induction false} AbsorbMeans(f: Fields, line: string)
    ensures var g := Absorb(f, line);
            && (g.sawField <==> f.sawField || !SaysNothing(line))
            && g.event == (if Sets(line, "event") then ValueOf(line, "event") else f.event)
            && g.id == (if Sets(line, "id") then Some(ValueOf(line, "id")) else f.id)
            && g.data == f.data + (if Sets(line, "data") then [ValueOf(line, "data")] else [])
  {
    NextSepIsFirst(line, ':', 0);
    var colon := NextSep(line, ':', 0);
    if colon < |line| {
      if line[0] != ':' {
        assert forall j | 0 <= j < colon :: line[j] == line[0..colon][j];
        OneName(line, "event", colon);
        OneName(line, "id", colon);
        OneName(line, "data", colon);
      }
    } else {
      assert line[0..colon] == line;
    }
  }

  /** Line `k` is the last of the first `n` to set this field. */
  predicate LastSets(lines: seq<string>, n: nat, field: string, k: nat)
    requires n <= |lines|
  {
    k < n && Sets(lines[k], field) && forall j | k < j < n :: !Sets(lines[j], field)
  }

  predicate NeverSets(lines: seq<string>, n: nat, field: string)
    requires n <= |lines|
  {
    forall k | 0 <= k < n :: !Sets(lines[k], field)
  }

  /** What the first `n` lines set the data to, one after the other. */
  function DataTo(lines: seq<string>, n: nat): seq<string>
    requires n <= |lines|
  {
    if n == 0 then []
    else DataTo(lines, n - 1) + if Sets(lines[n - 1], "data") then [ValueOf(lines[n - 1], "data")] else []
  }

  /** The value last set, if one was. */
  function LastOf(lines: seq<string>, n: nat, field: string): Option<string>
    requires n <= |lines|
  {
    if n == 0 then None
    else if Sets(lines[n - 1], field) then Some(ValueOf(lines[n - 1], field)) else LastOf(lines, n - 1, field)
  }

  lemma {:induction false} LastOfIs(lines: seq<string>, n: nat, field: string)
    requires n <= |lines|
    ensures LastOf(lines, n, field).None? <==> NeverSets(lines, n, field)
    ensures forall k: nat | LastSets(lines, n, field, k) :: LastOf(lines, n, field) == Some(ValueOf(lines[k], field))
  {
    if n > 0 { LastOfIs(lines, n - 1, field); }
  }

  lemma {:induction false} LinesSay(lines: seq<string>, n: nat)
    requires n <= |lines|
    ensures var f, event := AbsorbTo(lines, n), LastOf(lines, n, "event");
            && (f.sawField <==> exists k | 0 <= k < n :: !SaysNothing(lines[k]))
            && f.event == (if event.Some? then event.value else "message")
            && f.id == LastOf(lines, n, "id") && f.data == DataTo(lines, n)
  {
    if n > 0 {
      LinesSay(lines, n - 1);
      AbsorbMeans(AbsorbTo(lines, n - 1), lines[n - 1]);
    }
  }

  /** A block says nothing exactly where none of its lines does. Else its name and its id are those last set, its
      name `message` and its id none where none was, and its data all that is set, in order, one to a line. */
  lemma {:induction false} ParseMeans(block: string)
    ensures var lines, e := Split(block, '\n'), Parse(block); var n := |lines|;
            && (e.None? <==> forall k | 0 <= k < n :: SaysNothing(lines[k]))
            && (e.Some? ==>
                  && (NeverSets(lines, n, "event") ==> e.value.event == "message")
                  && (forall k: nat | LastSets(lines, n, "event", k) :: e.value.event == ValueOf(lines[k], "event"))
                  && (NeverSets(lines, n, "id") <==> e.value.id == None)
                  && (forall k: nat | LastSets(lines, n, "id", k) :: e.value.id == Some(ValueOf(lines[k], "id")))
                  && e.value.data == if DataTo(lines, n) == [] then "" else Join(DataTo(lines, n), '\n'))
  {
    var lines := Split(block, '\n');
    LinesSay(lines, |lines|);
    LastOfIs(lines, |lines|, "event");
    LastOfIs(lines, |lines|, "id");
  }

  // ---------- Blocks of a stream ----------

  predicate BreakAt(s: string, i: nat) {
    i + 1 < |s| && s[i] == '\n' && s[i + 1] == '\n'
  }

  /** `indexOf('\n\n')` from `i` on. */
  function Boundary(s: string, i: nat): (r: int)
    ensures r == -1 || (i <= r && BreakAt(s, r))
    decreases |s| - i
  {
    if i + 1 >= |s| then -1 else if BreakAt(s, i) then i else Boundary(s, i + 1)
  }

  function Blocks(s: string): seq<string>
    decreases |s|
  {
    var b := Boundary(s, 0);
    if b == -1 then [] else [s[..b]] + Blocks(s[b + 2..])
  }

  function Rest(s: string): string
    decreases |s|
  {
    var b := Boundary(s, 0);
    if b == -1 then s else Rest(s[b + 2..])
  }

  lemma {:induction false} BoundaryIs(s: string, i: nat, r: nat)
    requires i <= r && BreakAt(s, r) && forall k | i <= k < r :: !BreakAt(s, k)
    ensures Boundary(s, i) == r
    decreases r - i
  {
    if i < r { BoundaryIs(s, i + 1, r); }
  }

  lemma {:induction false} BoundaryIsFirst(s: string, i: nat)
    ensures var r := Boundary(s, i); forall k | i <= k && (r == -1 || k < r) :: !BreakAt(s, k)
    decreases |s| - i
  {
    if i + 1 < |s| { BoundaryIsFirst(s, i + 1); }
  }

  /** A stream read in two parts: what the second part completes is decided by the rest of the
      first, even where a chunk ends between the two newlines of a boundary. */
  lemma {:induction false} BlocksAppend(a: string, c: string)
    ensures Blocks(a + c) == Blocks(a) + Blocks(Rest(a) + c)
    ensures Rest(a + c) == Rest(Rest(a) + c)
    decreases |a|
  {
    var b := Boundary(a, 0);
    if b != -1 {
      BoundaryIsFirst(a, 0);
      forall k | 0 <= k < b ensures !BreakAt(a + c, k) { assert !BreakAt(a, k); }
      BoundaryIs(a + c, 0, b);
      assert (a + c)[..b] == a[..b] && (a + c)[b + 2..] == a[b + 2..] + c;
      BlocksAppend(a[b + 2..], c);
      assert Blocks(a) + Blocks(Rest(a) + c) == [a[..b]] + (Blocks(a[b + 2..]) + Blocks(Rest(a) + c));
    }
  }

  /** The events of the first `n` blocks; a block without a field is none. */
  function EventsTo(blocks: seq<string>, n: nat): seq<SseEvent>
    requires n <= |blocks|
  {
    if n == 0 then [] else EventsTo(blocks, n - 1) + Optional(Parse(blocks[n - 1]))
  }

  function Optional(e: Option<SseEvent>): seq<SseEvent> {
    if e.Some? then [e.value] else []
  }

  /** How many of the first `n` blocks are comments. */
  function CommentsTo(blocks: seq<string>, n: nat): nat
    requires n <= |blocks|
  {
    if n == 0 then 0 else CommentsTo(blocks, n - 1) + (if IsComment(blocks[n - 1]) then 1 else 0)
  }

  predicate IsComment(block: string) {
    block != "" && block[0] == ':'
  }

  function Events(blocks: seq<string>): seq<SseEvent> { EventsTo(blocks, |blocks|) }

  function Comments(blocks: seq<string>): nat { CommentsTo(blocks, |blocks|) }

  lemma {:induction false} OnlyTheFirst(xs: seq<string>, ys: seq<string>, n: nat)
    requires n <= |xs| && n <= |ys| && xs[..n] == ys[..n]
    ensures EventsTo(xs, n) == EventsTo(ys, n) && CommentsTo(xs, n) == CommentsTo(ys, n)
    decreases n
  {
    if n > 0 {
      assert xs[..n][n - 1] == ys[..n][n - 1];
      assert xs[..n - 1] == xs[..n][..n - 1] == ys[..n][..n - 1] == ys[..n - 1];
      OnlyTheFirst(xs, ys, n - 1);
    }
  }

  lemma {:induction false} OneMore(blocks: seq<string>, block: string)
    ensures Events(blocks + [block]) == Events(blocks) + Optional(Parse(block))
    ensures Comments(blocks + [block]) == Comments(blocks) + (if IsComment(block) then 1 else 0)
  {
    OnlyTheFirst(blocks + [block], blocks, |blocks|);
  }

  /** One keep-alive for each block that begins with a colon. */
  lemma {:induction false} CommentsCount(blocks: seq<string>)
    ensures Comments(blocks) == |StartingWithColon(blocks)|
  {
    CommentsCountTo(blocks, |blocks|);
    assert blocks[..|blocks|] == blocks;
  }

  function StartingWithColon(blocks: seq<string>): set<nat> {
    set k: nat | k < |blocks| && ":" <= blocks[k]
  }

  lemma {:induction false} CommentsCountTo(blocks: seq<string>, n: nat)
    requires n <= |blocks|
    ensures CommentsTo(blocks, n) == |StartingWithColon(blocks[..n])|
  {
    var now := StartingWithColon(blocks[..n]);
    if n == 0 {
      assert now == {};
    } else {
      CommentsCountTo(blocks, n - 1);
      var before := StartingWithColon(blocks[..n - 1]);
      assert now == before + if ":" <= blocks[n - 1] then {n - 1} else {};
    }
  }

  // ---------- The pump ----------

  class Pump {
    var buffer: string
    var received: seq<SseEvent>
    var keepalives: nat
    ghost var heard: string

    ghost predicate Valid()
      reads this
    {
      && buffer == Rest(heard)
      && received == Events(Blocks(heard)) && keepalives == Comments(Blocks(heard))
    }

    constructor ()
      ensures Valid() && heard == ""
    {
      buffer, received, keepalives, heard := "", [], 0, "";
    }

    method Feed(chunk: string)
      requires Valid()
      modifies this
      ensures Valid() && heard == old(heard) + chunk
    {
      BlocksAppend(heard, chunk);
      ghost var before := Blocks(heard);
      heard := heard + chunk;
      buffer := buffer + chunk;
      TakeBlocks(before);
    }

    /** The pump's loop over the boundaries of the buffer. */
    method TakeBlocks(ghost before: seq<string>)
      requires Blocks(heard) == before + Blocks(buffer) && Rest(heard) == Rest(buffer)
      requires received == Events(before) && keepalives == Comments(before)
      modifies `buffer, `received, `keepalives
      ensures Valid()
    {
      ghost var blocks := before;
      var boundary := Boundary(buffer, 0);
      while boundary != -1
        invariant boundary == Boundary(buffer, 0)
        invariant Blocks(heard) == blocks + Blocks(buffer) && Rest(heard) == Rest(buffer)
        invariant received == Events(blocks) && keepalives == Comments(blocks)
        decreases |buffer|
      {
        var block := buffer[..boundary];
        OneMore(blocks, block);
        TakeOne(blocks, buffer, boundary);
        blocks := blocks + [block];
        buffer := buffer[boundary + 2..];
        if IsComment(block) { keepalives := keepalives + 1; }
        var parsed := ParseBlock(block);
        if parsed.Some? { received := received + [parsed.value]; }
        boundary := Boundary(buffer, 0);
      }
      assert blocks + Blocks(buffer) == blocks;
    }
  }

  lemma {:induction false} TakeOne(blocks: seq<string>, buffer: string, boundary: nat)
    requires boundary == Boundary(buffer, 0)
    ensures blocks + Blocks(buffer) == (blocks + [buffer[..boundary]]) + Blocks(buffer[boundary + 2..])
    ensures Rest(buffer) == Rest(buffer[boundary + 2..])
  {
  }

  function Text(chunks: seq<string>): string {
    if chunks == [] then "" else Text(Init(chunks)) + Last(chunks)
  }

  /** The text of chunks is each of them, whole and in order. */
  lemma {:induction false} TextInOrder(a: seq<string>, b: seq<string>, chunk: string)
    ensures Text(a + b) == Text(a) + Text(b)
    ensures Text([chunk]) == chunk
    decreases |b|
  {
    assert Init([chunk]) == [];
    if b == [] {
      assert a + b == a;
    } else {
      assert Init(a + b) == a + Init(b) && Last(a + b) == Last(b);
      TextInOrder(a, Init(b), chunk);
    }
  }

  /** Chunking never changes what is read. */
  method Receive(chunks: seq<string>) returns (events: seq<SseEvent>, keepalives: nat)
    ensures events == Events(Blocks(Text(chunks))) && keepalives == Comments(Blocks(Text(chunks)))
  {
    var pump := new Pump();
    for n := 0 to |chunks|
      invariant pump.Valid() && pump.heard == Text(chunks[..n])
    {
      assert Init(chunks[..n + 1]) == chunks[..n];
      pump.Feed(chunks[n]);
    }
    assert chunks[..|chunks|] == chunks;
    return pump.received, pump.keepalives;
  }

  // ---------- Writing events ----------

  function Field(name: string, value: string): string {
    name + ": " + value
  }

  function DataFields(data: seq<string>): (lines: seq<string>)
    ensures |lines| == |data| && forall k | 0 <= k < |data| :: lines[k] == Field("data", data[k])
  {
    seq(|data|, k requires 0 <= k < |data| => Field("data", data[k]))
  }

  /** The lines a server writes for an event: its name, one line per line of its data, its id. */
  function EventLines(e: SseEvent): seq<string> {
    [Field("event", e.event)] + DataFields(Split(e.data, '\n'))
    + (if e.id.Some? then [Field("id", e.id.value)] else [])
  }

  function Format(e: SseEvent): string {
    Join(EventLines(e), '\n')
  }

  function Stream(events: seq<SseEvent>): string {
    if events == [] then "" else Format(events[0]) + "\n\n" + Stream(events[1..])
  }

  /** An event that can be written: its name and its id are single lines. */
  predicate Writable(e: SseEvent) {
    Free(e.event, '\n') && (e.id.Some? ==> Free(e.id.value, '\n'))
  }

  lemma {:induction false} AbsorbField(f: Fields, name: string, value: string)
    requires name != "" && Free(name, ':')
    ensures Absorb(f, Field(name, value)) == SetField(f, name, value)
  {
    var line := Field(name, value);
    assert line[|name|] == ':' && forall k | 0 <= k < |name| :: line[k] == name[k];
    FirstColon(line, 0, |name|);
    assert line[..|name|] == name && line[|name| + 1..] == " " + value;
    assert (" " + value)[1..] == value;
  }

  lemma {:induction false} FirstColon(line: string, i: nat, k: nat)
    requires i <= k < |line| && line[k] == ':' && forall m | i <= m < k :: line[m] != ':'
    ensures NextSep(line, ':', i) == k
    decreases k - i
  {
    if i < k { FirstColon(line, i + 1, k); }
  }

  lemma {:induction false} AbsorbsName(f: Fields, value: string)
    ensures Absorb(f, Field("event", value)) == f.(event := value, sawField := true)
  {
    AbsorbField(f, "event", value);
  }

  lemma {:induction false} AbsorbsLine(f: Fields, value: string)
    ensures Absorb(f, Field("data", value)) == f.(data := f.data + [value], sawField := true)
  {
    AbsorbField(f, "data", value);
  }

  lemma {:induction false} AbsorbsId(f: Fields, value: string)
    ensures Absorb(f, Field("id", value)) == f.(id := Some(value), sawField := true)
  {
    AbsorbField(f, "id", value);
  }

  lemma {:induction false} LineOfData(e: SseEvent, n: nat)
    requires 0 < n <= |Split(e.data, '\n')|
    ensures EventLines(e)[0] == Field("event", e.event)
    ensures n < |EventLines(e)| && EventLines(e)[n] == Field("data", Split(e.data, '\n')[n - 1])
  {
  }

  lemma {:induction false} TakeOneMore(data: seq<string>, n: nat)
    requires 0 < n <= |data|
    ensures data[..n] == data[..n - 1] + [data[n - 1]]
  {
  }

  lemma {:induction false} AbsorbData(e: SseEvent, n: nat)
    requires n <= |Split(e.data, '\n')|
    ensures n < |EventLines(e)|
    ensures AbsorbTo(EventLines(e), n + 1) == Fields(e.event, None, Split(e.data, '\n')[..n], true)
    decreases n
  {
    var lines, data := EventLines(e), Split(e.data, '\n');
    if n == 0 {
      assert lines[0] == Field("event", e.event);
      assert AbsorbTo(lines, 1) == Absorb(AbsorbTo(lines, 0), lines[0]);
      AbsorbsName(NoFields, e.event);
    } else {
      AbsorbData(e, n - 1);
      LineOfData(e, n);
      AbsorbsLine(AbsorbTo(lines, n), data[n - 1]);
      TakeOneMore(data, n);
    }
  }

  lemma {:induction false} AbsorbEvent(e: SseEvent)
    ensures var lines := EventLines(e);
            AbsorbTo(lines, |lines|) == Fields(e.event, e.id, Split(e.data, '\n'), true)
  {
    var lines, data := EventLines(e), Split(e.data, '\n');
    AbsorbData(e, |data|);
    assert data[..|data|] == data;
    if e.id.Some? {
      assert lines[|data| + 1] == Field("id", e.id.value);
      AbsorbsId(AbsorbTo(lines, |data| + 1), e.id.value);
    }
  }

  /** A line of a written event: not empty, not broken. */
  predicate Solid(line: string) {
    line != "" && Free(line, '\n')
  }

  lemma {:induction false} DataIsSolid(data: seq<string>)
    requires AllFree(data, '\n')
    ensures forall k | 0 <= k < |data| :: Solid(DataFields(data)[k])
  {
    forall k | 0 <= k < |data| ensures Solid(DataFields(data)[k]) { assert Free(data[k], '\n'); }
  }

  lemma {:induction false} EventIsSolid(e: SseEvent)
    requires Writable(e)
    ensures EventLines(e) != [] && forall k | 0 <= k < |EventLines(e)| :: Solid(EventLines(e)[k])
  {
    SplitJoins(e.data, '\n');
    DataIsSolid(Split(e.data, '\n'));
    assert Solid(Field("event", e.event));
    if e.id.Some? { assert Solid(Field("id", e.id.value)); }
  }

  /** Joined solid lines hold no boundary and end in none of its characters. */
  lemma {:induction false} SolidHasNoBreak(lines: seq<string>)
    requires lines != [] && forall k | 0 <= k < |lines| :: Solid(lines[k])
    ensures var s := Join(lines, '\n');
            s != "" && Last(s) != '\n' && forall k | 0 <= k < |s| :: !BreakAt(s, k)
    decreases |lines|
  {
    assert Solid(lines[|lines| - 1]);
    if |lines| > 1 {
      forall k | 0 <= k < |Init(lines)| ensures Solid(Init(lines)[k]) { assert Solid(lines[k]); }
      SolidHasNoBreak(Init(lines));
      var front, last := Join(Init(lines), '\n'), Last(lines);
      var s := Join(lines, '\n');
      forall k | 0 <= k < |s| ensures !BreakAt(s, k) {
        if k + 1 < |front| {
          assert !BreakAt(front, k);
        } else if k == |front| {
          assert s[k + 1] == last[0];
        } else if k > |front| {
          assert s[k] == last[k - |front| - 1];
        }
      }
    }
  }

  /** Parsing a written event gives it back. */
  lemma {:induction false} FormatParses(e: SseEvent)
    requires Writable(e)
    ensures Parse(Format(e)) == Some(e)
  {
    EventIsSolid(e);
    JoinSplits(EventLines(e), '\n');
    AbsorbEvent(e);
    SplitJoins(e.data, '\n');
  }

  /** A stream of written events is cut into exactly their texts, and nothing is left over. */
  lemma {:induction false} StreamBlocks(events: seq<SseEvent>)
    requires forall k | 0 <= k < |events| :: Writable(events[k])
    ensures Rest(Stream(events)) == "" && |Blocks(Stream(events))| == |events|
    ensures forall k | 0 <= k < |events| :: Blocks(Stream(events))[k] == Format(events[k])
    decreases |events|
  {
    if events != [] {
      var rest := Stream(events[1..]);
      FirstBlock(events[0], rest);
      StreamBlocks(events[1..]);
      assert Blocks(Stream(events)) == [Format(events[0])] + Blocks(rest);
    }
  }

  lemma {:induction false} FirstBlock(e: SseEvent, rest: string)
    requires Writable(e)
    ensures Blocks(Format(e) + "\n\n" + rest) == [Format(e)] + Blocks(rest)
    ensures Rest(Format(e) + "\n\n" + rest) == Rest(rest)
  {
    var f := Format(e);
    var s := f + "\n\n" + rest;
    EventIsSolid(e);
    SolidHasNoBreak(EventLines(e));
    forall k | 0 <= k < |f| ensures !BreakAt(s, k) { assert !BreakAt(f, k) && s[k] == f[k]; }
    BoundaryIs(s, 0, |f|);
    assert s[..|f|] == f && s[|f| + 2..] == rest;
  }

  lemma {:induction false} EventsOfFormats(blocks: seq<string>, events: seq<SseEvent>, n: nat)
    requires n <= |blocks| == |events|
    requires forall k | 0 <= k < |events| :: blocks[k] == Format(events[k])
    requires forall k | 0 <= k < |events| :: Writable(events[k])
    ensures EventsTo(blocks, n) == events[..n]
    decreases n
  {
    if n > 0 {
      EventsOfFormats(blocks, events, n - 1);
      FormatParses(events[n - 1]);
      assert events[..n] == events[..n - 1] + [events[n - 1]];
    }
  }

  /** End to end: whatever events are written and however their text is cut into chunks, a client
      reads exactly those events, in order. */
  method Transmit(events: seq<SseEvent>, chunks: seq<string>) returns (read: seq<SseEvent>)
    requires forall k | 0 <= k < |events| :: Writable(events[k])
    requires Text(chunks) == Stream(events)
    ensures read == events
  {
    var keepalives;
    read, keepalives := Receive(chunks);
    StreamBlocks(events);
    EventsOfFormats(Blocks(Stream(events)), events, |events|);
    assert events[..|events|] == events;
  }
}
