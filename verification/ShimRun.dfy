/** One attempt of a node driven through a vendor's CLI (run-shim-node.ts), and what happens when
    it is replayed after crashes. */
module ShimRun {
  import opened Options
  import opened Lines
  import opened Ledger
  import opened LineFiling
  import FrameGuard
  import opened ScopeAudit

  // ---------- Lines ----------

  /** The vendor's `result` line: its figures, and the failure it names if it names one. */
  datatype Envelope = Envelope(usage: Option<nat>, failure: Option<Reason>)

  /** What a parsed line says. `limit` is a rate limit, with the instant it resets if it names one;
      `compaction` a compaction boundary; `envelope` is there on the lines of type `result`. */
  datatype View = View(
    uuid: Option<string>, session: Option<string>, kind: string, text: string,
    limit: Option<Option<nat>>, compaction: Option<nat>, envelope: Option<Envelope>)

  datatype Parsed = Blank | Malformed | Line(view: View)

  /** What reading a line depends on: the vendor's dialect, the session DeFlow opened, and whether
      a wake registry is wired. */
  datatype Dialect = Dialect(parse: string -> Parsed, session: string, wakes: bool)

  /** The variables of the read loop. */
  datatype Reader = Reader(shelf: Shelf, text: string, envelope: Option<Envelope>, thrown: Option<Reason>)

  function Fresh(seen: set<string>): Reader { Reader(Shelf(seen, []), "", None, None) }

  /** A rate limit is acted on only where it names the instant it resets. */
  function LimitBatches(d: Dialect, v: View, raw: string): seq<Batch> {
    if v.limit.Some? && v.limit.value.Some? then
      [[RateLimited(v.limit.value, raw)]] + (if d.wakes then [[Wake(v.limit.value.value)]] else [])
    else []
  }

  function CompactionBatches(v: View): seq<Batch> {
    if v.compaction.Some? then [[Compacted(v.compaction.value)]] else []
  }

  /** What is filed of a line. A last line that no newline ends is filed without acting on a rate
      limit or a compaction in it. */
  function EntryOf(d: Dialect, v: View, raw: string, tail: bool): Entry {
    Entry(v.uuid, v.kind,
          (if tail then [] else LimitBatches(d, v, raw) + CompactionBatches(v)) + [[Chunk(raw + "\n")]])
  }

  predicate Foreign(d: Dialect, v: View) { v.session.Some? && v.session.value != d.session }

  /** The line is interpreted first, and filed second unless its uuid is durable already. */
  function Advance(d: Dialect, r: Reader, raw: string, tail: bool): Reader {
    if r.thrown.Some? then r
    else match d.parse(raw)
    case Blank => r
    case Malformed => r.(thrown := Some("malformed-output"))
    case Line(v) =>
      if Foreign(d, v) then r.(thrown := Some("protocol-error"))
      else Reader(Put(r.shelf, EntryOf(d, v, raw, tail)), r.text + v.text,
                  if v.envelope.Some? then v.envelope else r.envelope, None)
  }

  function Feed(d: Dialect, r: Reader, lines: seq<string>, n: nat): Reader
    requires n <= |lines|
  {
    if n == 0 then r else Advance(d, Feed(d, r, lines, n - 1), lines[n - 1], false)
  }

  // ---------- Chunks ----------

  /** A chunk of stdout: its bytes, and the characters they decode to. */
  datatype Piece = Piece(bytes: seq<FrameGuard.byte>, text: string)

  function Bytes(pieces: seq<Piece>): seq<FrameGuard.byte> {
    if pieces == [] then [] else Bytes(Init(pieces)) + Last(pieces).bytes
  }

  function Text(pieces: seq<Piece>): string {
    if pieces == [] then "" else Text(Init(pieces)) + Last(pieces).text
  }

  predicate TooLong(pieces: seq<Piece>, cap: nat) {
    FrameGuard.Verdict(Bytes(pieces), cap).Some?
  }

  /** The read loop over the first pieces: the cap is looked at before the piece is split. */
  function Read(d: Dialect, seen: set<string>, pieces: seq<Piece>, cap: nat): Reader {
    if pieces == [] then Fresh(seen)
    else
      var r := Read(d, seen, Init(pieces), cap);
      if r.thrown.Some? then r
      else if TooLong(pieces, cap) then r.(thrown := Some("frame-too-large"))
      else
        var lines := Done(Open(Text(Init(pieces)), '\n') + Last(pieces).text, '\n');
        Feed(d, r, lines, |lines|)
  }

  lemma {:induction false} FeedKeepsThrown(d: Dialect, r: Reader, lines: seq<string>, n: nat)
    requires n <= |lines| && r.thrown.Some?
    ensures Feed(d, r, lines, n) == r
  {
    if n > 0 { FeedKeepsThrown(d, r, lines, n - 1); }
  }

  lemma {:induction false} FeedPrefix(d: Dialect, r: Reader, a: seq<string>, b: seq<string>, n: nat)
    requires n <= |a|
    ensures Feed(d, r, a + b, n) == Feed(d, r, a, n)
  {
    if n > 0 { FeedPrefix(d, r, a, b, n - 1); }
  }

  lemma {:induction false} FeedAppend(d: Dialect, r: Reader, a: seq<string>, b: seq<string>, n: nat)
    requires n <= |b|
    ensures Feed(d, r, a + b, |a| + n) == Feed(d, Feed(d, r, a, |a|), b, n)
  {
    if n == 0 {
      FeedPrefix(d, r, a, b, |a|);
    } else {
      FeedAppend(d, r, a, b, n - 1);
      assert (a + b)[|a| + n - 1] == b[n - 1];
    }
  }

  lemma {:induction false} NotTooLongBefore(pieces: seq<Piece>, cap: nat)
    requires pieces != [] && !TooLong(pieces, cap)
    ensures !TooLong(Init(pieces), cap)
  {
    if TooLong(Init(pieces), cap) {
      FrameGuard.VerdictStays(Bytes(Init(pieces)), Last(pieces).bytes, cap);
      assert false;
    }
  }

  lemma {:induction false} ReadStep(d: Dialect, seen: set<string>, pieces: seq<Piece>, cap: nat, more: seq<string>)
    requires pieces != [] && !TooLong(pieces, cap)
    requires more == Done(Open(Text(Init(pieces)), '\n') + Last(pieces).text, '\n')
    ensures Read(d, seen, pieces, cap) == Feed(d, Read(d, seen, Init(pieces), cap), more, |more|)
  {
    var r := Read(d, seen, Init(pieces), cap);
    if r.thrown.Some? { FeedKeepsThrown(d, r, more, |more|); }
  }

  lemma {:induction false} FeedOn(d: Dialect, start: Reader, r: Reader, before: seq<string>, more: seq<string>,
      lines: seq<string>)
    requires r == Feed(d, start, before, |before|) && lines == before + more
    ensures Feed(d, r, more, |more|) == Feed(d, start, lines, |lines|)
  {
    FeedAppend(d, start, before, more, |more|);
  }

  /** While no line passes the cap, how the output was cut into pieces does not matter: what was
      read is what its complete lines say, one after the other. */
  lemma {:induction false} ReadIsFeed(d: Dialect, seen: set<string>, pieces: seq<Piece>, cap: nat)
    requires !TooLong(pieces, cap)
    ensures var lines := Done(Text(pieces), '\n');
            Read(d, seen, pieces, cap) == Feed(d, Fresh(seen), lines, |lines|)
  {
    if pieces == [] {
      assert Done("", '\n') == [];
    } else {
      var front, last := Text(Init(pieces)), Last(pieces).text;
      var before, more := Done(front, '\n'), Done(Open(front, '\n') + last, '\n');
      NotTooLongBefore(pieces, cap);
      ReadIsFeed(d, seen, Init(pieces), cap);
      ReadStep(d, seen, pieces, cap, more);
      SplitAppend(front, last, '\n');
      FeedOn(d, Fresh(seen), Read(d, seen, Init(pieces), cap), before, more, Done(Text(pieces), '\n'));
    }
  }

  // ---------- Before and after the output ----------

  /** What an attempt meets. A refusal that another module decides is its reason. */
  datatype Attempt = Attempt(
    dialect: Dialect, binary: Binary, prompt: string,
    lever: Option<Reason>, frameLimit: FrameGuard.Limit, subject: Subject,
    plan: Option<Reason>, admission: Option<Reason>, review: Option<Reason>, config: Option<Reason>,
    spawn: Option<Reason>,
    pieces: seq<Piece>, exitCode: Option<int>, limitCodes: set<int>, argumentRejected: bool)

  /** Everything decided without a process, in order. */
  function Refusal(a: Attempt): Option<Reason> {
    FirstOf(a.lever, FirstOf(FrameGuard.LimitRefusal(a.frameLimit), FirstOf(Unwired(a.subject),
      FirstOf(a.plan, FirstOf(a.admission, FirstOf(a.review, a.config))))))
  }

  /** What is looked at, in this order. */
  function Checks(a: Attempt): seq<Option<Reason>> {
    [a.lever, FrameGuard.LimitRefusal(a.frameLimit), Unwired(a.subject), a.plan, a.admission, a.review, a.config]
  }

  /** The refusal is the first that stands, each looked at only where those before it do not. */
  lemma {:induction false} RefusalIsFirst(a: Attempt)
    ensures IsFirstOf(Checks(a), Refusal(a))
  {
    var c := Checks(a);
    var last := FirstOf(c[5], c[6]);
    var late := FirstOf(c[3], FirstOf(c[4], last));
    assert c[5..] == [c[5]] + [c[6]] && c[4..] == [c[4]] + c[5..] && c[3..] == [c[3]] + c[4..];
    assert c[2..] == [c[2]] + c[3..] && c[1..] == [c[1]] + c[2..] && c == [c[0]] + c[1..];
    FirstOfIs(c[5], [c[6]], c[6]);
    FirstOfIs(c[4], c[5..], last);
    FirstOfIs(c[3], c[4..], FirstOf(c[4], last));
    FirstOfIs(c[2], c[3..], late);
    FirstOfIs(c[1], c[2..], FirstOf(c[2], late));
    FirstOfIs(c[0], c[1..], FirstOf(c[1], FirstOf(c[2], late)));
  }

  function Cap(a: Attempt): nat
    requires Refusal(a).None?
  {
    FrameGuard.ParseFrameLimit(a.frameLimit).value
  }

  function Answer(a: Attempt, seen: set<string>): Reader
    requires Refusal(a).None?
  {
    Advance(a.dialect, Read(a.dialect, seen, a.pieces, Cap(a)), Open(Text(a.pieces), '\n'), true)
  }

  function SpendOf(a: Attempt, e: Option<Envelope>, text: string): Spend {
    if e.Some? && e.value.usage.Some? then Reported(e.value.usage.value)
    else Estimated((|a.prompt| + 3) / 4, (|text| + 3) / 4)
  }

  /** The last rows, once the child has left: all but the closing batch, and the closing batch. */
  function ExitBefore(a: Attempt, r: Reader): seq<Batch> {
    if r.thrown.Some? then []
    else match r.envelope
    case None => if a.exitCode.Some? && a.exitCode.value in a.limitCodes then [[RateLimited(None, "exit")]] else []
    case Some(e) => if e.failure.Some? then [] else Warnings(a.subject)
  }

  function ExitClosing(a: Attempt, r: Reader): Batch {
    if r.thrown.Some? then [Failed(r.thrown.value)]
    else match r.envelope
    case None =>
      if a.exitCode.Some? && a.exitCode.value in a.limitCodes then [Failed("rate-limited")]
      else if a.argumentRejected then [Failed("argument-refused")]
      else [Failed("agent-exited")]
    case Some(e) =>
      var spend := BudgetConsumed(SpendOf(a, r.envelope, r.text));
      if e.failure.Some? then [spend, Failed(e.failure.value)]
      else if WorkProductRefusal(a.subject).Some? then [spend, Failed(WorkProductRefusal(a.subject).value)]
      else [spend, Completed(r.text, if e.usage.Some? then e.usage.value else 0)]
  }

  /** Everything an uninterrupted attempt writes before its closing batch. */
  function Opening(a: Attempt, seen: set<string>): seq<Batch> {
    [[Scheduled]] +
    if Refusal(a).Some? || a.spawn.Some? then []
    else [[Started(a.binary, Some(a.dialect.session))]] + Answer(a, seen).shelf.batches + ExitBefore(a, Answer(a, seen))
  }

  function ClosingBatch(a: Attempt, seen: set<string>): Batch {
    if Refusal(a).Some? then [Failed(Refusal(a).value)]
    else if a.spawn.Some? then [Failed(a.spawn.value)]
    else ExitClosing(a, Answer(a, seen))
  }

  function Trace(a: Attempt, seen: set<string>): seq<Batch> {
    Opening(a, seen) + [ClosingBatch(a, seen)]
  }

  // ---------- The runner ----------

  /** The read loop of one attempt, over the ledger it appends to. */
  class ReadLoop {
    const d: Dialect
    const book: Book
    ghost const base: seq<Batch>
    var seen: set<string>
    var text: string
    var envelope: Option<Envelope>
    var thrown: Option<Reason>
    ghost var filed: seq<Batch>

    ghost predicate Valid()
      reads this, book
    {
      book.batches == base + filed
    }

    ghost function Now(): Reader
      reads this
    {
      Reader(Shelf(seen, filed), text, envelope, thrown)
    }

    constructor (d: Dialect, seen: set<string>, book: Book)
      ensures Valid() && Now() == Fresh(seen)
      ensures this.d == d && this.book == book && this.base == book.batches
    {
      this.d, this.book, this.base := d, book, book.batches;
      this.seen, text, envelope, thrown, filed := seen, "", None, None, [];
    }

    method Append(row: Row)
      requires Valid()
      modifies this`filed, book
      ensures Valid() && filed == old(filed) + [[row]]
    {
      book.Append(row);
      filed := filed + [[row]];
    }

    method FileLine(raw: string, uuid: Option<string>, kind: string)
      requires Valid()
      modifies this`filed, this`seen, book
      ensures Valid() && Shelf(seen, filed) == Put(Shelf(old(seen), old(filed)),
               Entry(uuid, kind, [[Chunk(raw + "\n")]]))
    {
      if uuid.Some? && uuid.value in seen { return; }
      if uuid.Some? { seen := seen + {uuid.value}; }
      Append(Chunk(raw + "\n"));
      Append(LineFiled(uuid, kind));
      assert filed == old(filed) + Batches(Entry(uuid, kind, [[Chunk(raw + "\n")]]));
    }

    /** A rate limit's row and its wake, and a compaction's row, unless the line is known. */
    method ActOn(v: View, raw: string)
      requires Valid()
      modifies this`filed, book
      ensures Valid()
      ensures filed == old(filed) + if v.uuid.Some? && v.uuid.value in seen then []
                                    else LimitBatches(d, v, raw) + CompactionBatches(v)
    {
      ghost var start := filed;
      if v.limit.Some? && v.limit.value.Some? && !(v.uuid.Some? && v.uuid.value in seen) {
        Append(RateLimited(v.limit.value, raw));
        if d.wakes { Append(Wake(v.limit.value.value)); }
        assert filed == start + LimitBatches(d, v, raw);
      }
      if v.compaction.Some? && !(v.uuid.Some? && v.uuid.value in seen) {
        Append(Compacted(v.compaction.value));
      }
    }

    method ReadLine(raw: string, tail: bool)
      requires Valid() && thrown.None?
      modifies this, book
      ensures Valid() && Now() == Advance(d, old(Now()), raw, tail)
    {
      match d.parse(raw)
      case Blank =>
      case Malformed => thrown := Some("malformed-output");
      case Line(v) =>
        if v.session.Some? && v.session.value != d.session {
          thrown := Some("protocol-error");
          return;
        }
        text := text + v.text;
        ghost var before, knew := filed, Known(seen, EntryOf(d, v, raw, tail));
        if !tail { ActOn(v, raw); }
        if v.envelope.Some? { envelope := v.envelope; }
        ghost var acted := filed;
        FileLine(raw, v.uuid, v.kind);
        FilingIsPut(d, v, raw, tail, before, acted, filed, knew);
    }

    method ReadNext(lines: seq<string>, n: nat, ghost start: Reader)
      requires Valid() && thrown.None? && n < |lines| && Now() == Feed(d, start, lines, n)
      modifies this, book
      ensures Valid() && Now() == Feed(d, start, lines, n + 1)
    {
      ReadLine(lines[n], false);
    }

    method ReadLines(lines: seq<string>)
      requires Valid() && thrown.None?
      modifies this, book
      ensures Valid() && Now() == Feed(d, old(Now()), lines, |lines|)
    {
      ghost var start := Now();
      for n := 0 to |lines|
        invariant Valid() && Now() == Feed(d, start, lines, n) && thrown.None?
      {
        ReadNext(lines, n, start);
        if thrown.Some? {
          FeedKeepsGoing(d, start, lines, n + 1);
          return;
        }
      }
    }

    method ReadPieces(pieces: seq<Piece>, cap: nat) returns (pending: string)
      requires Valid() && thrown.None? && filed == [] && text == "" && envelope.None?
      modifies this, book
      ensures Valid() && Now() == Read(d, old(seen), pieces, cap)
      ensures thrown.None? ==> pending == Open(Text(pieces), '\n')
    {
      var guard := new FrameGuard.Guard(cap);
      pending := "";
      ghost var start := seen;
      for n := 0 to |pieces|
        invariant Valid() && thrown.None? && Now() == Read(d, start, pieces[..n], cap)
        invariant guard.Valid() && !guard.over && guard.cap == cap && guard.fed == Bytes(pieces[..n])
        invariant pending == Open(Text(pieces[..n]), '\n') && fresh(guard)
      {
        ghost var m := pieces[..n + 1];
        assert Init(m) == pieces[..n] && Last(m) == pieces[n];
        var report := guard.Inspect(pieces[n].bytes);
        if report.Some? {
          thrown := Some("frame-too-large");
          ReadKeepsThrown(d, start, pieces, cap, n + 1);
          return;
        }
        pending := pending + pieces[n].text;
        SplitAppend(Text(pieces[..n]), pieces[n].text, '\n');
        var lines := Done(pending, '\n');
        pending := Open(pending, '\n');
        ReadLines(lines);
        if thrown.Some? {
          ReadKeepsThrown(d, start, pieces, cap, n + 1);
          return;
        }
      }
      assert pieces[..|pieces|] == pieces;
    }
  }

  lemma {:induction false} FilingIsPut(d: Dialect, v: View, raw: string, tail: bool, before: seq<Batch>,
      acted: seq<Batch>, filed: seq<Batch>, knew: bool)
    requires acted == before + if tail || knew then [] else LimitBatches(d, v, raw) + CompactionBatches(v)
    requires filed == acted + if knew then [] else Batches(Entry(v.uuid, v.kind, [[Chunk(raw + "\n")]]))
    ensures filed == before + if knew then [] else Batches(EntryOf(d, v, raw, tail))
  {
    var act: seq<Batch> := if tail then [] else LimitBatches(d, v, raw) + CompactionBatches(v);
    var chunk: seq<Batch> := [[Chunk(raw + "\n")]];
    if !knew {
      var filed := [[LineFiled(v.uuid, v.kind)]];
      assert (before + act) + (chunk + filed) == before + ((act + chunk) + filed);
    }
  }

  lemma {:induction false} FeedKeepsGoing(d: Dialect, r: Reader, lines: seq<string>, n: nat)
    requires n <= |lines| && Feed(d, r, lines, n).thrown.Some?
    ensures Feed(d, r, lines, |lines|) == Feed(d, r, lines, n)
    decreases |lines| - n
  {
    if n < |lines| { FeedKeepsGoing(d, r, lines, n + 1); }
  }

  lemma {:induction false} ReadKeepsThrown(d: Dialect, seen: set<string>, pieces: seq<Piece>, cap: nat, n: nat)
    requires n <= |pieces| && Read(d, seen, pieces[..n], cap).thrown.Some?
    ensures Read(d, seen, pieces, cap) == Read(d, seen, pieces[..n], cap)
    decreases |pieces| - n
  {
    if n < |pieces| {
      assert Init(pieces[..n + 1]) == pieces[..n];
      ReadKeepsThrown(d, seen, pieces, cap, n + 1);
    } else {
      assert pieces[..n] == pieces;
    }
  }

  /** From the end of the output on. */
  method LeaveChild(a: Attempt, loop: ReadLoop, book: Book)
    modifies book
    ensures book.batches == old(book.batches) + ExitBefore(a, loop.Now()) + [ExitClosing(a, loop.Now())]
  {
    if loop.thrown.Some? {
      book.Append(Failed(loop.thrown.value));
      return;
    }
    var spend := BudgetConsumed(SpendOf(a, loop.envelope, loop.text));
    if loop.envelope.Some? && loop.envelope.value.failure.Some? {
      book.AppendAll([spend, Failed(loop.envelope.value.failure.value)]);
      return;
    }
    if loop.envelope.None? {
      if a.exitCode.Some? && a.exitCode.value in a.limitCodes {
        book.Append(RateLimited(None, "exit"));
        book.Append(Failed("rate-limited"));
        return;
      }
      book.Append(Failed(if a.argumentRejected then "argument-refused" else "agent-exited"));
      return;
    }
    var refusal := AuditCompletionScope(a.subject, book);
    if refusal.Some? {
      book.AppendAll([spend, Failed(refusal.value)]);
      return;
    }
    var usage := loop.envelope.value.usage;
    book.AppendAll([spend, Completed(loop.text, if usage.Some? then usage.value else 0)]);
  }

  /** The first refusal that stands, each looked at only where the ones before it do not. */
  method DecideWithoutProcess(a: Attempt) returns (refusal: Option<Reason>)
    ensures refusal == Refusal(a)
  {
    refusal := a.lever;
    if refusal.None? { refusal := FrameGuard.LimitRefusal(a.frameLimit); }
    if refusal.None? { refusal := Unwired(a.subject); }
    if refusal.None? { refusal := a.plan; }
    if refusal.None? { refusal := a.admission; }
    if refusal.None? { refusal := a.review; }
    if refusal.None? { refusal := a.config; }
  }

  lemma {:induction false} Appended(start: seq<Batch>, s: Batch, t: Batch, lines: seq<Batch>, x: seq<Batch>, c: Batch)
    ensures start + [s] + [t] + lines + x + [c] == start + ([s] + ([t] + lines + x) + [c])
    ensures start + [s] + [c] == start + ([s] + [] + [c])
  {
  }

  /** `runShimNode`: what it appends, branch by branch, is the attempt's trace. */
  method RunShimNode(a: Attempt, seen: set<string>, book: Book)
    modifies book
    ensures book.batches == old(book.batches) + Trace(a, seen)
  {
    ghost var start := book.batches;
    book.Append(Scheduled);
    var refusal := DecideWithoutProcess(a);
    if refusal.None? { refusal := a.spawn; }
    if refusal.Some? {
      book.Append(Failed(refusal.value));
      Appended(start, [Scheduled], [], [], [], ClosingBatch(a, seen));
      return;
    }
    book.Append(Started(a.binary, Some(a.dialect.session)));
    RunChild(a, seen, book);
    ghost var r := Answer(a, seen);
    Appended(start, [Scheduled], [Started(a.binary, Some(a.dialect.session))], r.shelf.batches, ExitBefore(a, r),
        ClosingBatch(a, seen));
  }

  method RunChild(a: Attempt, seen: set<string>, book: Book)
    requires Refusal(a).None?
    modifies book
    ensures var r := Answer(a, seen);
            book.batches == old(book.batches) + r.shelf.batches + ExitBefore(a, r) + [ExitClosing(a, r)]
  {
    var loop := new ReadLoop(a.dialect, seen, book);
    var pending := loop.ReadPieces(a.pieces, FrameGuard.ParseFrameLimit(a.frameLimit).value);
    if loop.thrown.None? { loop.ReadLine(pending, true); }
    LeaveChild(a, loop, book);
  }

  // ---------- One terminal record ----------

  lemma {:induction false} AdvanceIsCalm(d: Dialect, r: Reader, raw: string, tail: bool)
    requires Calm(r.shelf.batches)
    ensures Calm(Advance(d, r, raw, tail).shelf.batches)
  {
    if d.parse(raw).Line? {
      EntryIsCalm(d, d.parse(raw).view, raw, tail);
      CalmAppend(r.shelf.batches, Batches(EntryOf(d, d.parse(raw).view, raw, tail)));
    }
  }

  lemma {:induction false} EntryIsCalm(d: Dialect, v: View, raw: string, tail: bool)
    ensures Calm(Batches(EntryOf(d, v, raw, tail)))
  {
    var e := EntryOf(d, v, raw, tail);
    CalmAppend(LimitBatches(d, v, raw), CompactionBatches(v));
    CalmAppend(if tail then [] else LimitBatches(d, v, raw) + CompactionBatches(v), [[Chunk(raw + "\n")]]);
    CalmAppend(e.front, [[LineFiled(e.uuid, e.kind)]]);
  }

  lemma {:induction false} FeedIsCalm(d: Dialect, r: Reader, lines: seq<string>, n: nat)
    requires n <= |lines| && Calm(r.shelf.batches)
    ensures Calm(Feed(d, r, lines, n).shelf.batches)
  {
    if n > 0 {
      FeedIsCalm(d, r, lines, n - 1);
      AdvanceIsCalm(d, Feed(d, r, lines, n - 1), lines[n - 1], false);
    }
  }

  lemma {:induction false} ReadIsCalm(d: Dialect, seen: set<string>, pieces: seq<Piece>, cap: nat)
    ensures Calm(Read(d, seen, pieces, cap).shelf.batches)
  {
    if pieces != [] {
      ReadIsCalm(d, seen, Init(pieces), cap);
      var lines := Done(Open(Text(Init(pieces)), '\n') + Last(pieces).text, '\n');
      FeedIsCalm(d, Read(d, seen, Init(pieces), cap), lines, |lines|);
    }
  }

  lemma {:induction false} AnswerIsCalm(a: Attempt, seen: set<string>)
    requires Refusal(a).None?
    ensures Calm(Answer(a, seen).shelf.batches)
  {
    ReadIsCalm(a.dialect, seen, a.pieces, Cap(a));
    AdvanceIsCalm(a.dialect, Read(a.dialect, seen, a.pieces, Cap(a)), Open(Text(a.pieces), '\n'), true);
  }

  lemma {:induction false} OpeningIsCalm(a: Attempt, seen: set<string>)
    ensures Calm(Opening(a, seen))
  {
    if Refusal(a).None? && a.spawn.None? {
      var r := Answer(a, seen);
      AnswerIsCalm(a, seen);
      CalmAppend([[Started(a.binary, Some(a.dialect.session))]], r.shelf.batches);
      CalmAppend([[Started(a.binary, Some(a.dialect.session))]] + r.shelf.batches, ExitBefore(a, r));
    }
  }

  lemma {:induction false} ClosingBatchCloses(a: Attempt, seen: set<string>)
    ensures Closing(ClosingBatch(a, seen))
  {
  }

  /** Every attempt that returns has exactly one terminal record, the last row it writes; a spend
      only immediately before it, in the same batch; any scope warning earlier. */
  lemma {:induction false} AttemptCloses(a: Attempt, seen: set<string>)
    ensures var rows := Rows(Trace(a, seen)); rows != [] && Closed(rows, |rows| - 1)
  {
    ClosingBatchCloses(a, seen);
    OpeningIsCalm(a, seen);
    CalmRows(Opening(a, seen));
    RowsPush(Opening(a, seen), ClosingBatch(a, seen));
    var before, closing := Rows(Opening(a, seen)), ClosingBatch(a, seen);
    ClosingCloses(before, closing, []);
    assert Rows(Trace(a, seen)) == before + closing + [];
  }

  /** An attempt cut short by a crash has no terminal record and has booked no spend. */
  lemma {:induction false} CutAttemptIsOpen(a: Attempt, seen: set<string>, cut: nat)
    requires cut < |Trace(a, seen)|
    ensures AllQuiet(Rows(Trace(a, seen)[..cut]))
  {
    OpeningIsCalm(a, seen);
    assert Trace(a, seen)[..cut] == Opening(a, seen)[..cut];
    CalmRows(Opening(a, seen)[..cut]);
  }

  // ---------- What one line writes ----------

  /** Whether reading a line calls for this row. A last line that no newline ends calls for its bytes and its
      progress row only. */
  predicate Calls(d: Dialect, v: View, raw: string, tail: bool, row: Row) {
    match row
    case RateLimited(at, text) => !tail && at.Some? && v.limit == Some(at) && text == raw
    case Wake(at) => !tail && d.wakes && v.limit == Some(Some(at))
    case Compacted(tokens) => !tail && v.compaction == Some(tokens)
    case Chunk(data) => data == raw + "\n"
    case LineFiled(uuid, kind) => uuid == v.uuid && kind == v.kind
    case _ => false
  }

  function Turn(row: Row): nat {
    match row
    case RateLimited(_, _) => 0
    case Wake(_) => 1
    case Compacted(_) => 2
    case Chunk(_) => 3
    case _ => 4
  }

  lemma {:induction false} LimitCalls(d: Dialect, v: View, raw: string, row: Row)
    ensures [row] in LimitBatches(d, v, raw) <==> (row.RateLimited? || row.Wake?) && Calls(d, v, raw, false, row)
    ensures [row] in CompactionBatches(v) <==> row.Compacted? && Calls(d, v, raw, false, row)
  {
  }

  lemma {:induction false} InParts(a: seq<Batch>, b: seq<Batch>, c: Batch, e: Batch, batch: Batch)
    ensures batch in a + b + [c] + [e] <==> batch in a || batch in b || batch == c || batch == e
  {
  }

  /** One row to an append, in this order. */
  predicate InTurn(batches: seq<Batch>) {
    && (forall k | 0 <= k < |batches| :: |batches[k]| == 1)
    && (forall j, k | 0 <= j < k < |batches| :: Turn(batches[j][0]) < Turn(batches[k][0]))
  }

  predicate Within(batches: seq<Batch>, low: nat, high: nat) {
    forall k | 0 <= k < |batches| && batches[k] != [] :: low <= Turn(batches[k][0]) <= high
  }

  lemma {:induction false} InTurnAppend(a: seq<Batch>, b: seq<Batch>, n: nat)
    requires InTurn(a) && InTurn(b) && Within(a, 0, n) && Within(b, n + 1, 4)
    ensures InTurn(a + b) && Within(a + b, 0, 4)
  {
  }

  lemma {:induction false} PartsInTurn(limit: seq<Batch>, compaction: seq<Batch>, bytes: Row, name: Row)
    requires InTurn(limit) && Within(limit, 0, 1) && InTurn(compaction) && Within(compaction, 2, 4)
    requires Within(compaction, 2, 2) && bytes.Chunk? && name.LineFiled?
    ensures InTurn(limit + compaction + [[bytes]] + [[name]])
  {
    InTurnAppend(limit, compaction, 1);
    assert Within(limit + compaction, 0, 2);
    InTurnAppend(limit + compaction, [[bytes]], 2);
    assert Within(limit + compaction + [[bytes]], 0, 3);
    InTurnAppend(limit + compaction + [[bytes]], [[name]], 3);
  }

  lemma {:induction false} EntryParts(d: Dialect, v: View, raw: string, tail: bool)
    ensures Batches(EntryOf(d, v, raw, tail))
         == (if tail then [] else LimitBatches(d, v, raw)) + (if tail then [] else CompactionBatches(v))
            + [[Chunk(raw + "\n")]] + [[LineFiled(v.uuid, v.kind)]]
  {
  }

  /** A line writes each row in an append of its own: the limit before its wake, then the compaction, then the
      bytes, and the row that names the line last... */
  lemma {:induction false} LineInTurn(d: Dialect, v: View, raw: string, tail: bool)
    ensures InTurn(Batches(EntryOf(d, v, raw, tail)))
  {
    EntryParts(d, v, raw, tail);
    PartsInTurn(if tail then [] else LimitBatches(d, v, raw), if tail then [] else CompactionBatches(v),
                Chunk(raw + "\n"), LineFiled(v.uuid, v.kind));
  }

  /** ...and exactly the rows it calls for. */
  lemma {:induction false} LineWrites(d: Dialect, v: View, raw: string, tail: bool, row: Row)
    ensures [row] in Batches(EntryOf(d, v, raw, tail)) <==> Calls(d, v, raw, tail, row)
  {
    EntryParts(d, v, raw, tail);
    LimitCalls(d, v, raw, row);
    InParts(if tail then [] else LimitBatches(d, v, raw), if tail then [] else CompactionBatches(v),
            [Chunk(raw + "\n")], [LineFiled(v.uuid, v.kind)], [row]);
  }

  // ---------- What is read ----------

  /** Why a line makes the runner give up: it does not parse, or it is of another session. */
  function GivesUp(d: Dialect, raw: string): Option<Reason> {
    var p := d.parse(raw);
    if p.Malformed? then Some("malformed-output")
    else if p.Line? && p.view.session.Some? && p.view.session.value != d.session then Some("protocol-error")
    else None
  }

  function Said(d: Dialect, raw: string): string { if d.parse(raw).Line? then d.parse(raw).view.text else "" }

  function Result(d: Dialect, raw: string): Option<Envelope> {
    if d.parse(raw).Line? then d.parse(raw).view.envelope else None
  }

  /** The texts of the lines, one behind the other. */
  function AllSaid(d: Dialect, lines: seq<string>): string {
    if lines == [] then "" else Said(d, lines[0]) + AllSaid(d, lines[1..])
  }

  /** One line says its own text, and lines `a` and then `b` what `a` say and then what `b` say. */
  lemma {:induction false} SaidInOrder(d: Dialect, a: seq<string>, b: seq<string>)
    ensures AllSaid(d, a + b) == AllSaid(d, a) + AllSaid(d, b)
    ensures |a| == 1 ==> AllSaid(d, a) == Said(d, a[0])
    ensures a == [] ==> AllSaid(d, a) == ""
    decreases |a|
  {
    if a == [] {
      assert a + b == b;
    } else {
      assert (a + b)[1..] == a[1..] + b;
      SaidInOrder(d, a[1..], b);
    }
  }

  /** The first line that makes the runner give up, or the end. */
  function FirstGivesUp(d: Dialect, lines: seq<string>): (n: nat)
    ensures n <= |lines| && (n < |lines| ==> GivesUp(d, lines[n]).Some?)
    ensures forall k | 0 <= k < n :: GivesUp(d, lines[k]).None?
  {
    if lines == [] then 0
    else
      var n := FirstGivesUp(d, Init(lines));
      if n < |lines| - 1 || GivesUp(d, Last(lines)).Some? then n else |lines|
  }

  /** Line `k` is the last of the first `n` that is a result. */
  predicate IsLastResult(d: Dialect, lines: seq<string>, n: nat, k: nat)
    requires n <= |lines|
  {
    k < n && Result(d, lines[k]).Some? && forall j | k < j < n :: Result(d, lines[j]).None?
  }

  /** A reader that has read these lines: it gave up at the first line that asks for it, and why; its text is
      what the lines before that say, whole and in order; its result is the last of theirs. */
  ghost predicate HasRead(d: Dialect, lines: seq<string>, r: Reader) {
    var n := FirstGivesUp(d, lines);
    && r.thrown == (if n < |lines| then GivesUp(d, lines[n]) else None)
    && r.text == AllSaid(d, lines[..n])
    && (r.envelope.None? ==> forall k | 0 <= k < n :: Result(d, lines[k]).None?)
    && (r.envelope.Some? ==> exists k: nat :: IsLastResult(d, lines, n, k) && Result(d, lines[k]) == r.envelope)
  }

  lemma {:induction false} FirstStays(d: Dialect, lines: seq<string>, raw: string)
    ensures var n, more := FirstGivesUp(d, lines), lines + [raw];
            && FirstGivesUp(d, more) == (if n < |lines| || GivesUp(d, raw).Some? then n else |more|)
            && more[..n] == lines[..n] && forall k | 0 <= k < |lines| :: more[k] == lines[k]
  {
    assert Init(lines + [raw]) == lines && Last(lines + [raw]) == raw;
  }

  lemma {:induction false} AdvanceReads(d: Dialect, lines: seq<string>, r: Reader, raw: string, tail: bool)
    requires HasRead(d, lines, r)
    ensures HasRead(d, lines + [raw], Advance(d, r, raw, tail))
  {
    var n, more, next := FirstGivesUp(d, lines), lines + [raw], Advance(d, r, raw, tail);
    FirstStays(d, lines, raw);
    if n == |lines| && GivesUp(d, raw).None? {
      assert lines[..n] == lines && more[..|more|] == more;
      SaidInOrder(d, lines, [raw]);
      SaidInOrder(d, [raw], []);
      ResultStays(d, lines, r, raw, next);
    } else if r.envelope.Some? {
      var k: nat :| IsLastResult(d, lines, n, k) && Result(d, lines[k]) == r.envelope;
      assert IsLastResult(d, more, n, k);
    }
  }

  lemma {:induction false} ResultStays(d: Dialect, lines: seq<string>, r: Reader, raw: string, next: Reader)
    requires r.envelope.None? ==> forall k | 0 <= k < |lines| :: Result(d, lines[k]).None?
    requires r.envelope.Some? ==>
               exists k: nat :: IsLastResult(d, lines, |lines|, k) && Result(d, lines[k]) == r.envelope
    requires next.envelope == if Result(d, raw).Some? then Result(d, raw) else r.envelope
    ensures var more := lines + [raw];
            && (next.envelope.None? ==> forall k | 0 <= k < |more| :: Result(d, more[k]).None?)
            && (next.envelope.Some? ==>
                  exists k: nat :: IsLastResult(d, more, |more|, k) && Result(d, more[k]) == next.envelope)
  {
    var more := lines + [raw];
    if Result(d, raw).Some? {
      assert IsLastResult(d, more, |more|, |lines|) && more[|lines|] == raw;
    } else if r.envelope.Some? {
      var k: nat :| IsLastResult(d, lines, |lines|, k) && Result(d, lines[k]) == r.envelope;
      assert IsLastResult(d, more, |more|, k) && more[k] == lines[k];
    }
  }

  lemma {:induction false} FeedReads(d: Dialect, seen: set<string>, lines: seq<string>, n: nat)
    requires n <= |lines|
    ensures HasRead(d, lines[..n], Feed(d, Fresh(seen), lines, n))
  {
    if n == 0 {
      assert lines[..0] == [];
    } else {
      FeedReads(d, seen, lines, n - 1);
      AdvanceReads(d, lines[..n - 1], Feed(d, Fresh(seen), lines, n - 1), lines[n - 1], false);
      assert lines[..n] == lines[..n - 1] + [lines[n - 1]];
    }
  }

  /** Every line of the output: the complete ones, and the open one. */
  function OutputLines(a: Attempt): seq<string> { Done(Text(a.pieces), '\n') + [Open(Text(a.pieces), '\n')] }

  /** However the output was cut into pieces, what is read of one within the cap is what its lines say. */
  lemma {:induction false} AnswerReads(a: Attempt, seen: set<string>)
    requires Refusal(a).None? && !TooLong(a.pieces, Cap(a))
    ensures HasRead(a.dialect, OutputLines(a), Answer(a, seen))
  {
    var lines := Done(Text(a.pieces), '\n');
    ReadIsFeed(a.dialect, seen, a.pieces, Cap(a));
    FeedReads(a.dialect, seen, lines, |lines|);
    assert lines[..|lines|] == lines;
    AdvanceReads(a.dialect, lines, Read(a.dialect, seen, a.pieces, Cap(a)), Open(Text(a.pieces), '\n'), true);
  }

  /** The piece by whose end some line is over the cap, and no earlier piece's. */
  ghost predicate Trips(pieces: seq<Piece>, cap: nat, n: nat) {
    n < |pieces| && !TooLong(pieces[..n], cap) && TooLong(pieces[..n + 1], cap)
  }

  lemma {:induction false} SomePieceTrips(pieces: seq<Piece>, cap: nat)
    requires TooLong(pieces, cap)
    ensures exists n: nat :: Trips(pieces, cap, n)
  {
    if pieces == [] {
      FrameGuard.VerdictMeans(Bytes(pieces), cap);
      assert false;
    } else if TooLong(Init(pieces), cap) {
      SomePieceTrips(Init(pieces), cap);
      var n: nat :| Trips(Init(pieces), cap, n);
      assert Init(pieces)[..n] == pieces[..n] && Init(pieces)[..n + 1] == pieces[..n + 1];
      assert Trips(pieces, cap, n);
    } else {
      assert pieces[..|pieces| - 1] == Init(pieces) && pieces[..|pieces|] == pieces;
      assert Trips(pieces, cap, |pieces| - 1);
    }
  }

  /** Of an output over the cap, the lines complete before that piece are read, and the first of them that makes
      the runner give up, if one does, is the reason. */
  lemma {:induction false} TooLongThrows(d: Dialect, seen: set<string>, pieces: seq<Piece>, cap: nat, n: nat)
    requires Trips(pieces, cap, n)
    ensures var lines := Done(Text(pieces[..n]), '\n');
            var m := FirstGivesUp(d, lines);
            Read(d, seen, pieces, cap).thrown
              == if m < |lines| then GivesUp(d, lines[m]) else Some("frame-too-large")
  {
    var front, lines := pieces[..n], Done(Text(pieces[..n]), '\n');
    ReadIsFeed(d, seen, front, cap);
    FeedReads(d, seen, lines, |lines|);
    assert lines[..|lines|] == lines;
    assert Init(pieces[..n + 1]) == front;
    ReadKeepsThrown(d, seen, pieces, cap, n + 1);
  }

  /** An output that is read to its end, and its last result. */
  ghost predicate ReadsOut(a: Attempt, k: nat)
    requires Refusal(a).None?
  {
    var lines := OutputLines(a);
    && !TooLong(a.pieces, Cap(a)) && (forall j | 0 <= j < |lines| :: GivesUp(a.dialect, lines[j]).None?)
    && IsLastResult(a.dialect, lines, |lines|, k)
  }

  /** The attempt ran, its output was read to its end, and line `k` of it is the last result. */
  ghost predicate RanOut(a: Attempt, k: nat) { Refusal(a).None? && a.spawn.None? && ReadsOut(a, k) }

  lemma {:induction false} LastResultIsOne(d: Dialect, lines: seq<string>, n: nat, j: nat, k: nat)
    requires n <= |lines| && IsLastResult(d, lines, n, j) && IsLastResult(d, lines, n, k)
    ensures j == k
  {
  }

  /** What was read of an output that is read to its end. */
  lemma {:induction false} ReadsAll(a: Attempt, seen: set<string>, k: nat)
    requires Refusal(a).None? && ReadsOut(a, k)
    ensures var lines, r := OutputLines(a), Answer(a, seen);
            r.thrown.None? && r.envelope == Result(a.dialect, lines[k]) && r.text == AllSaid(a.dialect, lines)
  {
    var d, lines, r := a.dialect, OutputLines(a), Answer(a, seen);
    AnswerReads(a, seen);
    assert lines[..|lines|] == lines;
    assert FirstGivesUp(d, lines) == |lines|;
    assert Result(d, lines[k]).Some?;
    var m: nat :| IsLastResult(d, lines, |lines|, m) && Result(d, lines[m]) == r.envelope;
    LastResultIsOne(d, lines, |lines|, m, k);
  }

  /** An output of which nothing made the runner give up, and in which there was a result, is read to its end. */
  lemma {:induction false} OnlyThen(a: Attempt, seen: set<string>)
    requires Refusal(a).None? && Answer(a, seen).thrown.None? && Answer(a, seen).envelope.Some?
    ensures exists k: nat :: ReadsOut(a, k)
  {
    var d, lines, r := a.dialect, OutputLines(a), Answer(a, seen);
    if TooLong(a.pieces, Cap(a)) {
      SomePieceTrips(a.pieces, Cap(a));
      var n: nat :| Trips(a.pieces, Cap(a), n);
      TooLongThrows(d, seen, a.pieces, Cap(a), n);
    }
    AnswerReads(a, seen);
    assert FirstGivesUp(d, lines) == |lines|;
    var m: nat :| IsLastResult(d, lines, |lines|, m) && Result(d, lines[m]) == r.envelope;
    assert ReadsOut(a, m);
  }

  // ---------- How it ends ----------

  /** What a result books: its own figure, or else a quarter of the characters sent and said. */
  function SpendFor(a: Attempt, e: Envelope): Spend {
    if e.usage.Some? then Reported(e.usage.value)
    else Estimated((|a.prompt| + 3) / 4, (|AllSaid(a.dialect, OutputLines(a))| + 3) / 4)
  }

  /** What is written last by an attempt that ran out with this result. */
  predicate Finishes(a: Attempt, e: Envelope, closing: Batch) {
    && |closing| == 2 && closing[0] == BudgetConsumed(SpendFor(a, e))
    && closing[1] == if e.failure.Some? then Failed(e.failure.value)
                     else if WorkProductRefusal(a.subject).Some? then Failed(WorkProductRefusal(a.subject).value)
                     else Completed(AllSaid(a.dialect, OutputLines(a)), if e.usage.Some? then e.usage.value else 0)
  }

  lemma {:induction false} RanOutFinishes(a: Attempt, seen: set<string>, k: nat)
    requires RanOut(a, k)
    ensures Finishes(a, Result(a.dialect, OutputLines(a)[k]).value, ClosingBatch(a, seen))
  {
    ReadsAll(a, seen, k);
  }

  lemma {:induction false} OnlyRanOutFinishes(a: Attempt, seen: set<string>)
    requires forall k: nat :: !RanOut(a, k)
    ensures |ClosingBatch(a, seen)| == 1 && ClosingBatch(a, seen)[0].Failed?
  {
    if Refusal(a).None? && a.spawn.None? && Answer(a, seen).thrown.None? && Answer(a, seen).envelope.Some? {
      OnlyThen(a, seen);
      var k: nat :| ReadsOut(a, k);
      assert RanOut(a, k);
    }
  }

  /** An attempt completes exactly where nothing refuses it, its output is read to its end and holds a result,
      the last result names no failure, and no work product is missing. The output recorded is then the texts
      of all lines, whole and in order. It books a spend exactly where a result was read to the end. */
  lemma {:induction false} WhenItCompletes(a: Attempt, seen: set<string>)
    ensures var closing, lines := ClosingBatch(a, seen), OutputLines(a);
            && (|closing| == 2 <==> exists k: nat :: RanOut(a, k))
            && (forall k: nat | RanOut(a, k) :: Finishes(a, Result(a.dialect, lines[k]).value, closing))
            && (Last(closing).Completed? <==>
                  exists k: nat :: && RanOut(a, k) && Result(a.dialect, lines[k]).value.failure.None?
                                   && WorkProductRefusal(a.subject).None?)
            && (Last(closing).Completed? ==> Last(closing).output == AllSaid(a.dialect, lines))
  {
    forall k: nat | RanOut(a, k)
      ensures Finishes(a, Result(a.dialect, OutputLines(a)[k]).value, ClosingBatch(a, seen))
    {
      RanOutFinishes(a, seen, k);
    }
    if forall k: nat :: !RanOut(a, k) { OnlyRanOutFinishes(a, seen); }
    FinishesExactly(a, ClosingBatch(a, seen));
  }

  lemma {:induction false} FinishesExactly(a: Attempt, closing: Batch)
    requires forall k: nat | RanOut(a, k) :: Finishes(a, Result(a.dialect, OutputLines(a)[k]).value, closing)
    requires closing != [] && ((forall k: nat :: !RanOut(a, k)) ==> |closing| == 1 && closing[0].Failed?)
    ensures |closing| == 2 <==> exists k: nat :: RanOut(a, k)
    ensures Last(closing).Completed? <==>
              exists k: nat :: && RanOut(a, k) && Result(a.dialect, OutputLines(a)[k]).value.failure.None?
                               && WorkProductRefusal(a.subject).None?
    ensures Last(closing).Completed? ==> Last(closing).output == AllSaid(a.dialect, OutputLines(a))
  {
    if k: nat :| RanOut(a, k) { assert Last(closing) == closing[1]; }
  }

  /** Why the reading stopped: a line that makes the runner give up, or the cap. */
  ghost predicate Stops(a: Attempt, q: Reason)
    requires Refusal(a).None?
  {
    if TooLong(a.pieces, Cap(a)) then
      exists n: nat :: Trips(a.pieces, Cap(a), n) && StopsAt(a.dialect, Done(Text(a.pieces[..n]), '\n'), q, true)
    else StopsAt(a.dialect, OutputLines(a), q, false)
  }

  predicate StopsAt(d: Dialect, lines: seq<string>, q: Reason, over: bool) {
    var n := FirstGivesUp(d, lines);
    if n < |lines| then GivesUp(d, lines[n]) == Some(q) else over && q == "frame-too-large"
  }

  lemma {:induction false} StopsThrows(a: Attempt, seen: set<string>, q: Reason)
    requires Refusal(a).None?
    ensures Stops(a, q) <==> Answer(a, seen).thrown == Some(q)
  {
    if TooLong(a.pieces, Cap(a)) {
      SomePieceTrips(a.pieces, Cap(a));
      forall n: nat | Trips(a.pieces, Cap(a), n)
        ensures StopsAt(a.dialect, Done(Text(a.pieces[..n]), '\n'), q, true) <==> Answer(a, seen).thrown == Some(q)
      {
        TooLongThrows(a.dialect, seen, a.pieces, Cap(a), n);
      }
    } else {
      AnswerReads(a, seen);
    }
  }

  /** Every failure has its reason: the refusal, the spawn's, what stopped the reading, and else, where no result
      was read, a declared exit code, a refused argument, or just that the agent left. */
  lemma {:induction false} WhyItFails(a: Attempt, seen: set<string>, q: Reason)
    ensures var closing, limited := ClosingBatch(a, seen), a.exitCode.Some? && a.exitCode.value in a.limitCodes;
            (|closing| == 1 ==>
              (Last(closing) == Failed(q) <==>
                if Refusal(a).Some? then Refusal(a) == Some(q)
                else if a.spawn.Some? then a.spawn == Some(q)
                else if exists stop :: Stops(a, stop) then Stops(a, q)
                else q == if limited then "rate-limited"
                          else if a.argumentRejected then "argument-refused" else "agent-exited"))
  {
    if Refusal(a).None? && a.spawn.None? {
      forall stop ensures Stops(a, stop) <==> Answer(a, seen).thrown == Some(stop) { StopsThrows(a, seen, stop); }
      ExitSays(a, Answer(a, seen), q);
    }
  }

  lemma {:induction false} ExitSays(a: Attempt, r: Reader, q: Reason)
    requires Refusal(a).None? && forall stop :: Stops(a, stop) <==> r.thrown == Some(stop)
    ensures var closing, limited := ExitClosing(a, r), a.exitCode.Some? && a.exitCode.value in a.limitCodes;
            (|closing| == 1 ==>
              (Last(closing) == Failed(q) <==>
                if exists stop :: Stops(a, stop) then Stops(a, q)
                else q == if limited then "rate-limited"
                          else if a.argumentRejected then "argument-refused" else "agent-exited"))
  {
    if r.thrown.Some? { assert Stops(a, r.thrown.value); }
  }

  /** What an attempt writes before its closing batch: its schedule; where it runs, its start record and what is
      filed of its output; and then a warning where it ran out well and the auditor warns, or a limit where no
      result was read and the exit code was declared one, and nothing else. */
  lemma {:induction false} BeforeItCloses(a: Attempt, seen: set<string>)
    ensures Refusal(a).Some? || a.spawn.Some? ==> Opening(a, seen) == [[Scheduled]]
    ensures Refusal(a).None? && a.spawn.None? ==>
              var lines, s := OutputLines(a), a.subject;
              var limited := a.exitCode.Some? && a.exitCode.value in a.limitCodes;
              var before := [[Scheduled], [Started(a.binary, Some(a.dialect.session))]] + Answer(a, seen).shelf.batches;
              && (forall q | Stops(a, q) :: Opening(a, seen) == before)
              && (forall k: nat | RanOut(a, k) ::
                    Opening(a, seen) == before +
                      if Result(a.dialect, lines[k]).value.failure.None? && s.declared != [] && s.auditor
                         && s.found.warning
                      then [[ScopeWarning]] else [])
              && ((forall q :: !Stops(a, q)) && (forall k: nat :: !RanOut(a, k)) ==>
                    Opening(a, seen) == before + if limited then [[RateLimited(None, "exit")]] else [])
  {
    if Refusal(a).None? && a.spawn.None? {
      var r := Answer(a, seen);
      forall q ensures Stops(a, q) <==> r.thrown == Some(q) { StopsThrows(a, seen, q); }
      forall k: nat | RanOut(a, k)
        ensures r.thrown.None? && r.envelope == Result(a.dialect, OutputLines(a)[k]) && r.envelope.Some?
      {
        ReadsAll(a, seen, k);
      }
      if r.thrown.None? && r.envelope.Some? {
        OnlyThen(a, seen);
        var k: nat :| ReadsOut(a, k);
        assert RanOut(a, k);
      }
      OpeningIs(a, seen);
    }
  }

  lemma {:induction false} OpeningIs(a: Attempt, seen: set<string>)
    requires Refusal(a).None? && a.spawn.None?
    ensures var r := Answer(a, seen);
            Opening(a, seen)
              == [[Scheduled], [Started(a.binary, Some(a.dialect.session))]] + r.shelf.batches + ExitBefore(a, r)
  {
    var r := Answer(a, seen);
    assert [[Scheduled]] + ([[Started(a.binary, Some(a.dialect.session))]] + r.shelf.batches + ExitBefore(a, r))
        == [[Scheduled], [Started(a.binary, Some(a.dialect.session))]] + r.shelf.batches + ExitBefore(a, r);
  }

  // ---------- Replay ----------

  /** The lines that are read, up to the first that makes the runner give up, as they are filed. */
  function Entries(d: Dialect, lines: seq<string>, n: nat): seq<Entry>
    requires n <= |lines|
  {
    if n == 0 then []
    else Entries(d, lines, n - 1) + Filing(d, Feed(d, Fresh({}), lines, n - 1).thrown, lines[n - 1])
  }

  function Filing(d: Dialect, thrown: Option<Reason>, raw: string): seq<Entry> {
    if thrown.Some? || !d.parse(raw).Line? || Foreign(d, d.parse(raw).view) then []
    else [EntryOf(d, d.parse(raw).view, raw, false)]
  }

  /** The same answer so far. */
  predicate Agree(r: Reader, q: Reader) {
    r.text == q.text && r.envelope == q.envelope && r.thrown == q.thrown
  }

  lemma {:induction false} AdvanceAgrees(d: Dialect, r: Reader, q: Reader, raw: string)
    requires Agree(r, q)
    ensures Agree(Advance(d, r, raw, false), Advance(d, q, raw, false))
  {
  }

  /** What is read off the output does not depend on what was durable already... */
  lemma {:induction false} FeedAgrees(d: Dialect, r: Reader, q: Reader, lines: seq<string>, n: nat)
    requires n <= |lines| && Agree(r, q)
    ensures Agree(Feed(d, r, lines, n), Feed(d, q, lines, n))
  {
    if n > 0 {
      FeedAgrees(d, r, q, lines, n - 1);
      AdvanceAgrees(d, Feed(d, r, lines, n - 1), Feed(d, q, lines, n - 1), lines[n - 1]);
    }
  }

  lemma {:induction false} AdvanceFiles(d: Dialect, seen: set<string>, r: Reader, raw: string, before: seq<Entry>)
    requires r.shelf == FileAll(seen, before)
    ensures Advance(d, r, raw, false).shelf == FileAll(seen, before + Filing(d, r.thrown, raw))
  {
    FileAllMore(seen, before, Filing(d, r.thrown, raw));
  }

  /** ...and what is written is the filing of its lines. */
  lemma {:induction false} FeedFiles(d: Dialect, seen: set<string>, lines: seq<string>, n: nat)
    requires n <= |lines|
    ensures Feed(d, Fresh(seen), lines, n).shelf == FileAll(seen, Entries(d, lines, n))
  {
    if n > 0 {
      FeedFiles(d, seen, lines, n - 1);
      FeedAgrees(d, Fresh(seen), Fresh({}), lines, n - 1);
      var r := Feed(d, Fresh(seen), lines, n - 1);
      AdvanceFiles(d, seen, r, lines[n - 1], Entries(d, lines, n - 1));
      assert Entries(d, lines, n) == Entries(d, lines, n - 1) + Filing(d, r.thrown, lines[n - 1]);
    }
  }

  /** The attempt is run on this output: nothing refuses it, no line passes the cap, and the output
      ends with a newline or in blanks. */
  ghost predicate Replays(a: Attempt, d: Dialect, lines: seq<string>) {
    && Refusal(a).None? && a.spawn.None? && a.dialect == d
    && !TooLong(a.pieces, Cap(a)) && Done(Text(a.pieces), '\n') == lines
    && d.parse(Open(Text(a.pieces), '\n')).Blank?
  }

  lemma {:induction false} AnswerFiles(a: Attempt, d: Dialect, lines: seq<string>, seen: set<string>)
    requires Replays(a, d, lines)
    ensures Agree(Answer(a, seen), Answer(a, {}))
    ensures Answer(a, seen).shelf == FileAll(seen, Entries(d, lines, |lines|))
  {
    ReadIsFeed(d, seen, a.pieces, Cap(a));
    ReadIsFeed(d, {}, a.pieces, Cap(a));
    FeedFiles(d, seen, lines, |lines|);
    FeedAgrees(d, Fresh(seen), Fresh({}), lines, |lines|);
  }

  lemma {:induction false} ExitAgrees(a: Attempt, r: Reader, q: Reader)
    requires Agree(r, q)
    ensures ExitBefore(a, r) == ExitBefore(a, q) && ExitClosing(a, r) == ExitClosing(a, q)
  {
  }

  /** A life of the attempt, and how many batches it wrote before it was killed, if it was. */
  datatype Run = Run(attempt: Attempt, killedAfter: Option<nat>)

  function Written(r: Run, seen: set<string>): seq<Batch> {
    var whole := Trace(r.attempt, seen);
    if r.killedAfter.Some? && r.killedAfter.value < |whole| then whole[..r.killedAfter.value] else whole
  }

  /** The ledger after some lives, each of which is told which uuids the ledger holds. */
  function LedgerAfter(runs: seq<Run>): seq<Row> {
    if runs == [] then []
    else LedgerAfter(Init(runs)) + Rows(Written(Last(runs), SeenIn(LedgerAfter(Init(runs)))))
  }

  function LifeOf(r: Run): Life
    requires Refusal(r.attempt).None?
  {
    var a := r.attempt;
    Life([[Scheduled], [Started(a.binary, Some(a.dialect.session))]],
         ExitBefore(a, Answer(a, {})) + [ExitClosing(a, Answer(a, {}))], r.killedAfter)
  }

  ghost predicate AllReplay(runs: seq<Run>, d: Dialect, lines: seq<string>) {
    forall k | 0 <= k < |runs| :: Replays(runs[k].attempt, d, lines)
  }

  function LivesOf(runs: seq<Run>, d: Dialect, lines: seq<string>): seq<Life>
    requires AllReplay(runs, d, lines)
  {
    if runs == [] then [] else LivesOf(Init(runs), d, lines) + [LifeOf(Last(runs))]
  }

  lemma {:induction false} Regroup(s: Batch, t: Batch, lines: seq<Batch>, x: seq<Batch>, c: Batch)
    ensures [s] + ([t] + lines + x) + [c] == [s, t] + lines + (x + [c])
  {
  }

  lemma {:induction false} TraceIsWhole(r: Run, d: Dialect, lines: seq<string>, seen: set<string>)
    requires Replays(r.attempt, d, lines)
    ensures Trace(r.attempt, seen) == Whole(seen, Entries(d, lines, |lines|), LifeOf(r))
  {
    var a := r.attempt;
    AnswerFiles(a, d, lines, seen);
    ExitAgrees(a, Answer(a, seen), Answer(a, {}));
    Regroup([Scheduled], [Started(a.binary, Some(a.dialect.session))], Answer(a, seen).shelf.batches,
            ExitBefore(a, Answer(a, seen)), ClosingBatch(a, seen));
  }

  lemma {:induction false} RunIsLife(r: Run, d: Dialect, lines: seq<string>, seen: set<string>)
    requires Replays(r.attempt, d, lines)
    ensures Written(r, seen) == LineFiling.Written(seen, Entries(d, lines, |lines|), LifeOf(r))
  {
    TraceIsWhole(r, d, lines, seen);
  }

  lemma {:induction false} LifeIsAround(r: Run)
    requires Refusal(r.attempt).None?
    ensures AllUnfiled(LifeOf(r).before) && AllUnfiled(LifeOf(r).after)
  {
  }

  lemma {:induction false} LifeLacksLines(r: Run, p: Row -> bool)
    requires Refusal(r.attempt).None? && OfLines(p)
    ensures NoneIn(LifeOf(r).before, p) && NoneIn(LifeOf(r).after, p)
  {
  }

  lemma {:induction false} LivesAre(runs: seq<Run>, d: Dialect, lines: seq<string>, k: nat)
    requires AllReplay(runs, d, lines) && k < |runs|
    ensures |LivesOf(runs, d, lines)| == |runs| && LivesOf(runs, d, lines)[k] == LifeOf(runs[k])
  {
    if |runs| > 1 { LivesAre(Init(runs), d, lines, if k < |runs| - 1 then k else 0); }
  }

  lemma {:induction false} LivesAreAround(runs: seq<Run>, d: Dialect, lines: seq<string>)
    requires AllReplay(runs, d, lines)
    ensures AroundLines(LivesOf(runs, d, lines))
  {
    var lives := LivesOf(runs, d, lines);
    forall k | 0 <= k < |lives| ensures AllUnfiled(lives[k].before) && AllUnfiled(lives[k].after) {
      LivesAre(runs, d, lines, if k < |runs| then k else 0);
      LifeIsAround(runs[k]);
    }
  }

  lemma {:induction false} LivesLackLines(runs: seq<Run>, d: Dialect, lines: seq<string>, p: Row -> bool)
    requires AllReplay(runs, d, lines) && OfLines(p)
    ensures OnlyLinesWrite(LivesOf(runs, d, lines), p)
  {
    var lives := LivesOf(runs, d, lines);
    forall k | 0 <= k < |lives| ensures NoneIn(lives[k].before, p) && NoneIn(lives[k].after, p) {
      LivesAre(runs, d, lines, if k < |runs| then k else 0);
      LifeLacksLines(runs[k], p);
    }
  }

  lemma {:induction false} RunsAreLives(runs: seq<Run>, d: Dialect, lines: seq<string>)
    requires AllReplay(runs, d, lines)
    ensures LedgerAfter(runs) == History(Entries(d, lines, |lines|), LivesOf(runs, d, lines))
  {
    if runs != [] {
      RunsAreLives(Init(runs), d, lines);
      HistoryPush(Entries(d, lines, |lines|), LivesOf(Init(runs), d, lines), LifeOf(Last(runs)));
      RunIsLife(Last(runs), d, lines, SeenIn(LedgerAfter(Init(runs))));
    }
  }

  /** Rows that only the reading of lines writes. */
  ghost predicate OfLines(p: Row -> bool) {
    forall r | p(r) :: r.LineFiled? || r.Chunk? || r.Compacted? || r.Wake? || (r.RateLimited? && r.resetsAt.Some?)
  }

  lemma {:induction false} FilingIsWellFormed(d: Dialect, thrown: Option<Reason>, raw: string)
    ensures WellFormed(Filing(d, thrown, raw))
  {
  }

  lemma {:induction false} WellFormedAppend(a: seq<Entry>, b: seq<Entry>)
    requires WellFormed(a) && WellFormed(b)
    ensures WellFormed(a + b)
  {
  }

  lemma {:induction false} EntriesAreWellFormed(d: Dialect, lines: seq<string>, n: nat)
    requires n <= |lines|
    ensures WellFormed(Entries(d, lines, n))
  {
    if n > 0 {
      var thrown := Feed(d, Fresh({}), lines, n - 1).thrown;
      EntriesAreWellFormed(d, lines, n - 1);
      FilingIsWellFormed(d, thrown, lines[n - 1]);
      WellFormedAppend(Entries(d, lines, n - 1), Filing(d, thrown, lines[n - 1]));
    }
  }

  /** Line `k` says something and is read: neither it nor a line before it makes the runner give up. */
  predicate ReadAt(d: Dialect, lines: seq<string>, k: nat) {
    k < |lines| && d.parse(lines[k]).Line? && forall j | 0 <= j <= k :: GivesUp(d, lines[j]).None?
  }

  function EntryAt(d: Dialect, lines: seq<string>, k: nat): Entry
    requires k < |lines| && d.parse(lines[k]).Line?
  {
    EntryOf(d, d.parse(lines[k]).view, lines[k], false)
  }

  lemma {:induction false} GoesOn(d: Dialect, lines: seq<string>, n: nat)
    requires n <= |lines|
    ensures Feed(d, Fresh({}), lines, n).thrown.None? <==> forall j | 0 <= j < n :: GivesUp(d, lines[j]).None?
  {
    FeedReads(d, {}, lines, n);
    assert forall j | 0 <= j < n :: lines[..n][j] == lines[j];
  }

  /** What a last line that no newline ends is filed as, where it is read. */
  function TailEntry(a: Attempt): seq<Entry> {
    var n, open := |Done(Text(a.pieces), '\n')|, Open(Text(a.pieces), '\n');
    if ReadAt(a.dialect, OutputLines(a), n) then [EntryOf(a.dialect, a.dialect.parse(open).view, open, true)] else []
  }

  lemma {:induction false} TailIsRead(a: Attempt)
    ensures var n, lines := |Done(Text(a.pieces), '\n')|, Done(Text(a.pieces), '\n');
            var open := Open(Text(a.pieces), '\n');
            ReadAt(a.dialect, OutputLines(a), n) <==>
              && (forall j | 0 <= j < n :: GivesUp(a.dialect, lines[j]).None?)
              && GivesUp(a.dialect, open).None? && a.dialect.parse(open).Line?
  {
    var lines := Done(Text(a.pieces), '\n');
    assert forall j | 0 <= j < |lines| :: OutputLines(a)[j] == lines[j];
  }

  /** What is written of an output within the cap is the filing of its lines, the open one last, each uuid once. */
  lemma {:induction false} AnswerIsFiled(a: Attempt, seen: set<string>)
    requires Refusal(a).None? && !TooLong(a.pieces, Cap(a))
    ensures var lines := Done(Text(a.pieces), '\n');
            Answer(a, seen).shelf == FileAll(seen, Entries(a.dialect, lines, |lines|) + TailEntry(a))
  {
    var d, lines, open := a.dialect, Done(Text(a.pieces), '\n'), Open(Text(a.pieces), '\n');
    ReadIsFeed(d, seen, a.pieces, Cap(a));
    FeedFiles(d, seen, lines, |lines|);
    FeedAgrees(d, Fresh(seen), Fresh({}), lines, |lines|);
    GoesOn(d, lines, |lines|);
    TailIsRead(a);
    FileAllMore(seen, Entries(d, lines, |lines|), TailEntry(a));
  }

  function FiledAt(d: Dialect, lines: seq<string>, n: nat): seq<Entry>
    requires n < |lines|
  {
    if ReadAt(d, lines, n) then [EntryAt(d, lines, n)] else []
  }

  /** What is filed behind the first `n` lines is the next one, where it is read. */
  lemma {:induction false} NextEntry(d: Dialect, lines: seq<string>, n: nat)
    requires n < |lines|
    ensures Entries(d, lines, n + 1) == Entries(d, lines, n) + FiledAt(d, lines, n)
  {
    GoesOn(d, lines, n);
  }

  /** A line before `n` that is read carries this uuid. */
  predicate Carried(d: Dialect, lines: seq<string>, n: nat, u: string)
    requires n <= |lines|
  {
    exists k | 0 <= k < n :: ReadAt(d, lines, k) && d.parse(lines[k]).view.uuid == Some(u)
  }

  lemma {:induction false} CarriedNext(d: Dialect, lines: seq<string>, n: nat, u: string)
    requires n < |lines|
    ensures Carried(d, lines, n + 1, u) <==>
              Carried(d, lines, n, u) || (ReadAt(d, lines, n) && d.parse(lines[n]).view.uuid == Some(u))
  {
  }

  lemma {:induction false} UuidsThen(d: Dialect, lines: seq<string>, n: nat, u: string)
    requires n < |lines|
    ensures u in Uuids(Entries(d, lines, n + 1)) <==> Carried(d, lines, n + 1, u)
    decreases n, 1
  {
    UuidsAre(d, lines, n, u);
    NextEntry(d, lines, n);
    CarriedNext(d, lines, n, u);
    UuidsOfNext(d, lines, n, Entries(d, lines, n), u);
  }

  /** A uuid is filed where a line that is read carries it. */
  lemma {:induction false} UuidsAre(d: Dialect, lines: seq<string>, n: nat, u: string)
    requires n <= |lines|
    ensures u in Uuids(Entries(d, lines, n)) <==> Carried(d, lines, n, u)
    decreases n, 0
  {
    if n > 0 { UuidsThen(d, lines, n - 1, u); }
  }

  lemma {:induction false} UuidsOfNext(d: Dialect, lines: seq<string>, n: nat, entries: seq<Entry>, u: string)
    requires n < |lines|
    ensures u in Uuids(entries + FiledAt(d, lines, n)) <==>
              u in Uuids(entries) || (ReadAt(d, lines, n) && d.parse(lines[n]).view.uuid == Some(u))
  {
    UuidsMore(entries, FiledAt(d, lines, n));
  }

  lemma {:induction false} UuidsMore(entries: seq<Entry>, more: seq<Entry>)
    requires |more| <= 1
    ensures Uuids(entries + more) == Uuids(entries) + if more == [] then {} else UuidOf(more[0])
  {
    if more == [] {
      assert entries + more == entries;
    } else {
      assert Init(entries + more) == entries;
    }
  }

  lemma {:induction false} StandsMeans(entries: seq<Entry>, front: seq<Entry>, e: Entry)
    requires StandsBehind(entries, front, e)
    ensures |front| < |entries| && entries[|front|] == e && entries[..|front|] == front
  {
    assert entries[|front|] == (front + [e])[|front|];
    assert entries[..|front|] == (front + [e])[..|front|];
  }

  lemma {:induction false} StandsStill(entries: seq<Entry>, more: seq<Entry>, front: seq<Entry>, e: Entry)
    requires StandsBehind(entries, front, e)
    ensures StandsBehind(entries + more, front, e)
  {
  }

  /** A line that is read stands among those filed behind what was filed before it. */
  lemma {:induction false} EntryStands(d: Dialect, lines: seq<string>, n: nat, k: nat)
    requires k < n <= |lines| && ReadAt(d, lines, k)
    ensures StandsBehind(Entries(d, lines, n), Entries(d, lines, k), EntryAt(d, lines, k))
    decreases n, 0
  {
    if k < n - 1 { EntryStays(d, lines, n - 1, k); } else { NextEntry(d, lines, k); }
  }

  lemma {:induction false} EntryStays(d: Dialect, lines: seq<string>, n: nat, k: nat)
    requires k < n < |lines| && ReadAt(d, lines, k)
    ensures StandsBehind(Entries(d, lines, n + 1), Entries(d, lines, k), EntryAt(d, lines, k))
    decreases n, 1
  {
    EntryStands(d, lines, n, k);
    NextEntry(d, lines, n);
    StandsStill(Entries(d, lines, n), FiledAt(d, lines, n), Entries(d, lines, k), EntryAt(d, lines, k));
  }

  /** The entry stands in the list, directly behind these. */
  predicate StandsBehind(entries: seq<Entry>, front: seq<Entry>, e: Entry) { front + [e] <= entries }

  /** After any number of lives killed at any append and one that ran to its end, all on the same
      output, every uuid that was read has exactly one progress row, and no other has one. */
  lemma {:induction false} ReplayFilesEachLineOnce(runs: seq<Run>, d: Dialect, lines: seq<string>, u: string)
    requires AllReplay(runs, d, lines) && runs != [] && Last(runs).killedAfter.None?
    ensures Count(LedgerAfter(runs), NamesUuid(u))
         == if Carried(d, lines, |lines|, u) then 1 else 0
  {
    ReplayStarts(runs, d, lines);
    ReplayFilesOnce(Entries(d, lines, |lines|), LivesOf(runs, d, lines), u, NamesUuid(u));
    UuidsAre(d, lines, |lines|, u);
  }

  lemma {:induction false} ReplayStarts(runs: seq<Run>, d: Dialect, lines: seq<string>)
    requires AllReplay(runs, d, lines) && runs != [] && Last(runs).killedAfter.None?
    ensures var lives := LivesOf(runs, d, lines);
            && WellFormed(Entries(d, lines, |lines|)) && AroundLines(lives) && lives != [] && Last(lives).cut.None?
            && LedgerAfter(runs) == History(Entries(d, lines, |lines|), lives)
  {
    RunsAreLives(runs, d, lines);
    LivesAreAround(runs, d, lines);
    LivesAre(runs, d, lines, |runs| - 1);
    EntriesAreWellFormed(d, lines, |lines|);
  }

  /** The replay ends as an uninterrupted run of its last life ends, whatever was durable. */
  lemma {:induction false} ReplayEndsTheSame(runs: seq<Run>, d: Dialect, lines: seq<string>)
    requires AllReplay(runs, d, lines) && runs != [] && Last(runs).killedAfter.None?
    ensures var closing := ClosingBatch(Last(runs).attempt, {});
            exists before :: LedgerAfter(runs) == before + closing
  {
    var a, h := Last(runs).attempt, LedgerAfter(Init(runs));
    AnswerFiles(a, d, lines, SeenIn(h));
    ExitAgrees(a, Answer(a, SeenIn(h)), Answer(a, {}));
    RowsPush(Opening(a, SeenIn(h)), ClosingBatch(a, SeenIn(h)));
    assert h + (Rows(Opening(a, SeenIn(h))) + ClosingBatch(a, {}))
        == (h + Rows(Opening(a, SeenIn(h)))) + ClosingBatch(a, {});
  }

  /** The open line of a replayed output says nothing. */
  lemma {:induction false} ReplayRanOut(a: Attempt, d: Dialect, lines: seq<string>, k: nat)
    requires Replays(a, d, lines) && forall j | 0 <= j < |lines| :: GivesUp(d, lines[j]).None?
    requires IsLastResult(d, lines, |lines|, k)
    ensures RanOut(a, k) && OutputLines(a)[k] == lines[k] && AllSaid(d, OutputLines(a)) == AllSaid(d, lines)
  {
    var open := Open(Text(a.pieces), '\n');
    SaidInOrder(d, lines, [open]);
    SaidInOrder(d, [open], []);
    LastStays(d, lines, open, k);
  }

  lemma {:induction false} LastStays(d: Dialect, lines: seq<string>, open: string, k: nat)
    requires IsLastResult(d, lines, |lines|, k) && d.parse(open).Blank?
    requires forall j | 0 <= j < |lines| :: GivesUp(d, lines[j]).None?
    ensures var all := lines + [open];
            && IsLastResult(d, all, |all|, k) && all[k] == lines[k]
            && forall j | 0 <= j < |all| :: GivesUp(d, all[j]).None?
  {
  }

  /** Where nothing in the output makes the runner give up, and its last result names no failure, the replay
      completes, and says what all the lines say. */
  lemma {:induction false} ReplaySaysItAll(runs: seq<Run>, d: Dialect, lines: seq<string>, k: nat)
    requires AllReplay(runs, d, lines) && runs != [] && Last(runs).killedAfter.None?
    requires forall j | 0 <= j < |lines| :: GivesUp(d, lines[j]).None?
    requires IsLastResult(d, lines, |lines|, k) && Result(d, lines[k]).value.failure.None?
    requires WorkProductRefusal(Last(runs).attempt.subject).None?
    ensures LedgerAfter(runs) != [] && Last(LedgerAfter(runs)).Completed?
    ensures Last(LedgerAfter(runs)).output == AllSaid(d, lines)
  {
    var a := Last(runs).attempt;
    ReplayRanOut(a, d, lines, k);
    RanOutFinishes(a, {}, k);
    ReplayEndsTheSame(runs, d, lines);
    var before :| LedgerAfter(runs) == before + ClosingBatch(a, {});
    assert Last(before + ClosingBatch(a, {})) == ClosingBatch(a, {})[1];
  }

  /** The first line to carry a uuid, among those that are read. */
  predicate First(d: Dialect, lines: seq<string>, k: nat) {
    && ReadAt(d, lines, k) && d.parse(lines[k]).view.uuid.Some?
    && !Carried(d, lines, k, d.parse(lines[k]).view.uuid.value)
  }

  /** Nothing the first line with some uuid calls for is lost: neither its rate limit, nor its wake,
      nor its compaction, nor its bytes. */
  lemma {:induction false} ReplayLosesNothing(runs: seq<Run>, d: Dialect, lines: seq<string>, k: nat, row: Row)
    requires AllReplay(runs, d, lines) && runs != [] && Last(runs).killedAfter.None?
    requires First(d, lines, k) && Calls(d, d.parse(lines[k]).view, lines[k], false, row)
    ensures row in LedgerAfter(runs)
  {
    var entries, m, v := Entries(d, lines, |lines|), |Entries(d, lines, k)|, d.parse(lines[k]).view;
    var p := (x: Row) => x == row;
    ReplayStarts(runs, d, lines);
    ReplayFilesOnce(entries, LivesOf(runs, d, lines), "", p);
    EntryStands(d, lines, |lines|, k);
    StandsMeans(entries, Entries(d, lines, k), EntryAt(d, lines, k));
    UuidsAre(d, lines, k, v.uuid.value);
    FirstOwes(entries, m, p);
    LineWrites(d, v, lines[k], false, row);
    RowsHold(Batches(entries[m]), row);
    CountedIsThere(Rows(Batches(entries[m])), row);
    CountedIsThere(LedgerAfter(runs), row);
  }

  lemma {:induction false} RowsHold(batches: seq<Batch>, row: Row)
    requires [row] in batches
    ensures row in Rows(batches)
  {
    if Last(batches) != [row] { RowsHold(Init(batches), row); }
  }

  /** How many rows of a kind the killed runs had begun of lines they did not finish, and that the
      replay writes again. */
  ghost function Repeated(runs: seq<Run>, d: Dialect, lines: seq<string>, p: Row -> bool): nat
    requires AllReplay(runs, d, lines)
  {
    AllBegun(Entries(d, lines, |lines|), LivesOf(runs, d, lines), p)
  }

  /** No run was killed behind a row of this kind and before the row that names its line. */
  ghost predicate NoneRepeated(runs: seq<Run>, d: Dialect, lines: seq<string>, p: Row -> bool)
    requires AllReplay(runs, d, lines)
  {
    NoneBegun(Entries(d, lines, |lines|), LivesOf(runs, d, lines), p)
  }

  /** Of a kind of row that only lines with a uuid write, the ledger holds what the first lines with each
      uuid call for, and over that what killed runs had begun. So a replay repeats no limit and no
      compaction exactly where no run was killed between such a row and the row that names its line. */
  lemma {:induction false} ReplayRepeatsExactly(runs: seq<Run>, d: Dialect, lines: seq<string>, p: Row -> bool)
    requires AllReplay(runs, d, lines) && runs != [] && Last(runs).killedAfter.None?
    requires OfLines(p) && OnlyNamed(Entries(d, lines, |lines|), p)
    ensures var owed := Owed({}, Entries(d, lines, |lines|), p);
            && Count(LedgerAfter(runs), p) == owed + Repeated(runs, d, lines, p)
            && (Count(LedgerAfter(runs), p) == owed <==> NoneRepeated(runs, d, lines, p))
  {
    ReplayStarts(runs, d, lines);
    LivesLackLines(runs, d, lines, p);
    ReplayIsExact(Entries(d, lines, |lines|), LivesOf(runs, d, lines), p);
    NoneBegunMeans(Entries(d, lines, |lines|), LivesOf(runs, d, lines), p);
  }

  /** And it does repeat: a run killed between a line's rate limit and the row that names the line, and
      replayed, reports the limit twice. */
  lemma {:induction false} KillInsideALineRepeats(a: Attempt, d: Dialect, raw: string, v: View)
    requires Replays(a, d, [raw]) && d.parse(raw) == Line(v) && !Foreign(d, v)
    requires v.uuid.Some? && v.limit.Some? && v.limit.value.Some?
    ensures AllReplay([Run(a, Some(3)), Run(a, None)], d, [raw])
    ensures Repeated([Run(a, Some(3)), Run(a, None)], d, [raw], (r: Row) => r.RateLimited? && r.resetsAt.Some?) == 1
  {
    var p := (r: Row) => r.RateLimited? && r.resetsAt.Some?;
    LivesOfTwo(Run(a, Some(3)), Run(a, None), d, raw);
    EntriesOfOne(d, raw);
    LimitTwice(d, v, raw, LifeOf(Run(a, Some(3))), LifeOf(Run(a, None)), p);
  }

  lemma {:induction false} LimitTwice(d: Dialect, v: View, raw: string, killed: Life, replay: Life, p: Row -> bool)
    requires v.uuid.Some? && v.limit.Some? && v.limit.value.Some? && p(RateLimited(v.limit.value, raw))
    requires killed.cut == Some(|killed.before| + 1) && replay.cut.None?
    ensures AllBegun([EntryOf(d, v, raw, false)], [killed] + [replay], p) == 1
  {
    LimitComesFirst(d, v, raw);
    TwoLives(EntryOf(d, v, raw, false), killed, replay, p);
  }

  lemma {:induction false} LimitComesFirst(d: Dialect, v: View, raw: string)
    requires v.limit.Some? && v.limit.value.Some?
    ensures var front := EntryOf(d, v, raw, false).front; |front| > 0 && front[0] == [RateLimited(v.limit.value, raw)]
  {
  }

  lemma {:induction false} LivesOfTwo(one: Run, two: Run, d: Dialect, raw: string)
    requires Replays(one.attempt, d, [raw]) && Replays(two.attempt, d, [raw])
    ensures AllReplay([one, two], d, [raw]) && LivesOf([one, two], d, [raw]) == [LifeOf(one)] + [LifeOf(two)]
  {
    assert Init([one, two]) == [one] && Init([one]) == [];
    assert LivesOf([one], d, [raw]) == [] + [LifeOf(one)];
  }

  lemma {:induction false} EntriesOfOne(d: Dialect, raw: string)
    requires d.parse(raw).Line? && !Foreign(d, d.parse(raw).view)
    ensures Entries(d, [raw], 1) == [EntryOf(d, d.parse(raw).view, raw, false)]
  {
    assert Feed(d, Fresh({}), [raw], 0).thrown.None?;
  }
}
