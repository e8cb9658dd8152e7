/** The frame-size guard (frame-guard.ts): a byte counter that must answer, chunk by chunk, what
    looking at the whole stream so far would answer. */
module FrameGuard {
  import opened Options
  import opened Lines

  newtype byte = x: int | 0 <= x < 256

  const NEWLINE: byte := 0x0a
  const DEFAULT_MAX_FRAME_BYTES := 8 * 1024 * 1024
  const FRAME_EVIDENCE_BYTES := 4096
  const MAX_SAFE_INTEGER := 0x1f_ffff_ffff_ffff

  /** A configured limit, as the JavaScript number it arrives as. */
  datatype Limit = Absent | Integer(value: int) | NotAnInteger

  /** The cap to use, or none where `InvalidFrameLimit` is thrown. */
  function ParseFrameLimit(limit: Limit): (cap: Option<nat>)
    ensures cap.Some? ==> 1 <= cap.value <= MAX_SAFE_INTEGER
    ensures cap.None? <==> limit.NotAnInteger? || (limit.Integer? && !(1 <= limit.value <= MAX_SAFE_INTEGER))
  {
    match limit
    case Absent => Some(DEFAULT_MAX_FRAME_BYTES)
    case NotAnInteger => None
    case Integer(n) => if n < 1 || n > MAX_SAFE_INTEGER then None else Some(n)
  }

  function LimitRefusal(limit: Limit): Option<string> {
    if ParseFrameLimit(limit).None? then Some("invalid-frame-limit") else None
  }

  datatype Report = Report(bytes: nat, limit: nat, head: seq<byte>)

  // ---------- The whole-stream answer ----------

  function Clip(line: seq<byte>): seq<byte> {
    if |line| <= FRAME_EVIDENCE_BYTES then line else line[..FRAME_EVIDENCE_BYTES]
  }

  /** The first line over the cap, as it is reported. */
  function FirstOver(lines: seq<seq<byte>>, cap: nat): Option<Report> {
    if lines == [] then None
    else if |lines[0]| > cap then Some(Report(|lines[0]|, cap, Clip(lines[0])))
    else FirstOver(lines[1..], cap)
  }

  function Verdict(stream: seq<byte>, cap: nat): Option<Report> {
    FirstOver(Split(stream, NEWLINE), cap)
  }

  /** A run of more than `cap` bytes with no newline among them. */
  predicate Overlong(s: seq<byte>, cap: nat, i: nat, j: nat) {
    i <= j <= |s| && j - i > cap && Free(s[i..j], NEWLINE)
  }

  lemma {:induction false} FirstOverAppend(xs: seq<seq<byte>>, ys: seq<seq<byte>>, cap: nat)
    ensures FirstOver(xs + ys, cap)
         == if FirstOver(xs, cap).Some? then FirstOver(xs, cap) else FirstOver(ys, cap)
    decreases |xs|
  {
    if xs == [] {
      assert xs + ys == ys;
    } else {
      assert (xs + ys)[1..] == xs[1..] + ys;
      FirstOverAppend(xs[1..], ys, cap);
    }
  }

  lemma {:induction false} FirstOverOne(line: seq<byte>, cap: nat)
    ensures FirstOver([line], cap)
         == if |line| > cap then Some(Report(|line|, cap, Clip(line))) else None
  {
  }

  lemma {:induction false} VerdictSplits(s: seq<byte>, cap: nat)
    ensures Verdict(s, cap) == if FirstOver(Done(s, NEWLINE), cap).Some?
                               then FirstOver(Done(s, NEWLINE), cap)
                               else FirstOver([Open(s, NEWLINE)], cap)
  {
    FirstOverAppend(Done(s, NEWLINE), [Open(s, NEWLINE)], cap);
  }

  lemma {:induction false} VerdictStep(s: seq<byte>, cap: nat)
    requires s != []
    ensures Verdict(s, cap).Some? <==> Verdict(Init(s), cap).Some? || |Open(s, NEWLINE)| > cap
    ensures Verdict(Init(s), cap).Some? ==> Verdict(s, cap).Some?
  {
    VerdictSplits(s, cap);
    VerdictSplits(Init(s), cap);
    FirstOverOne(Open(s, NEWLINE), cap);
    FirstOverOne(Open(Init(s), NEWLINE), cap);
    FirstOverAppend(Done(Init(s), NEWLINE), [Open(Init(s), NEWLINE)], cap);
  }

  /** A stream once over the cap stays over it, whatever follows. */
  lemma {:induction false} VerdictStays(a: seq<byte>, b: seq<byte>, cap: nat)
    requires Verdict(a, cap).Some?
    ensures Verdict(a + b, cap).Some?
    decreases |b|
  {
    if b == [] {
      assert a + b == a;
    } else {
      VerdictStays(a, Init(b), cap);
      assert Init(a + b) == a + Init(b);
      VerdictStep(a + b, cap);
    }
  }

  lemma {:induction false} OpenIsTail(s: seq<byte>)
    ensures |Open(s, NEWLINE)| <= |s| && Open(s, NEWLINE) == s[|s| - |Open(s, NEWLINE)|..]
    ensures forall i | 0 <= i <= |s| && Free(s[i..], NEWLINE) :: |s| - i <= |Open(s, NEWLINE)|
  {
    if s != [] {
      OpenIsTail(Init(s));
      forall i | 0 <= i < |s| && Free(s[i..], NEWLINE) ensures |s| - i <= |Open(s, NEWLINE)| {
        assert s[i..][|s| - 1 - i] == Last(s);
        forall k | 0 <= k < |Init(s)[i..]| ensures Init(s)[i..][k] != NEWLINE { assert s[i..][k] == Init(s)[i..][k]; }
      }
    }
  }

  lemma {:induction false} EarlierRun(s: seq<byte>, cap: nat, i: nat, j: nat)
    requires s != [] && i <= j < |s|
    ensures Overlong(Init(s), cap, i, j) <==> Overlong(s, cap, i, j)
  {
    assert Init(s)[i..j] == s[i..j];
  }

  lemma {:induction false} LastRun(s: seq<byte>, cap: nat)
    ensures |Open(s, NEWLINE)| > cap <==> exists i: nat :: Overlong(s, cap, i, |s|)
  {
    OpenIsTail(s);
    OpenIsFree(s, NEWLINE);
    var n := |Open(s, NEWLINE)|;
    assert s[|s| - n..] == s[|s| - n..|s|];
    if n > cap { assert Overlong(s, cap, |s| - n, |s|); }
    if i: nat :| Overlong(s, cap, i, |s|) { assert s[i..] == s[i..|s|]; }
  }

  /** Something is reported exactly when some run without a newline is longer than the cap. */
  lemma {:induction false} VerdictMeans(s: seq<byte>, cap: nat)
    ensures Verdict(s, cap).Some? <==> exists i: nat, j: nat :: Overlong(s, cap, i, j)
  {
    VerdictSplits(s, cap);
    if s != [] {
      VerdictMeans(Init(s), cap);
      VerdictStep(s, cap);
      LastRun(s, cap);
      if i: nat, j: nat :| Overlong(Init(s), cap, i, j) { EarlierRun(s, cap, i, j); }
      if i: nat, j: nat :| Overlong(s, cap, i, j) && j < |s| { EarlierRun(s, cap, i, j); }
    }
  }

  /** What is reported is the first such line as far as it has come, and the front of it. */
  lemma {:induction false} VerdictReports(s: seq<byte>, cap: nat)
    requires Verdict(s, cap).Some?
    ensures var lines, r := Split(s, NEWLINE), Verdict(s, cap).value;
            && r.limit == cap
            && exists k :: 0 <= k < |lines| && r.bytes == |lines[k]| > cap && r.head == Clip(lines[k])
                           && forall m | 0 <= m < k :: |lines[m]| <= cap
  {
    FirstOverReports(Split(s, NEWLINE), cap);
  }

  lemma {:induction false} FirstOverReports(lines: seq<seq<byte>>, cap: nat)
    requires FirstOver(lines, cap).Some?
    ensures var r := FirstOver(lines, cap).value;
            && r.limit == cap
            && exists k :: 0 <= k < |lines| && r.bytes == |lines[k]| > cap && r.head == Clip(lines[k])
                           && forall m | 0 <= m < k :: |lines[m]| <= cap
    decreases |lines|
  {
    if |lines[0]| <= cap {
      FirstOverReports(lines[1..], cap);
      var r := FirstOver(lines, cap).value;
      var k :| 0 <= k < |lines[1..]| && r.bytes == |lines[1..][k]| > cap && r.head == Clip(lines[1..][k])
               && forall m | 0 <= m < k :: |lines[1..][m]| <= cap;
      assert lines[k + 1] == lines[1..][k];
      forall m | 0 <= m < k + 1 ensures |lines[m]| <= cap {
        if m > 0 { assert lines[m] == lines[1..][m - 1]; }
      }
    }
  }

  // ---------- The guard ----------

  class Guard {
    const cap: nat
    var since: nat
    var over: bool
    var head: seq<byte>
    ghost var fed: seq<byte>  // every byte looked at, up to the end of the chunk that tripped

    ghost predicate Valid()
      reads this
    {
      && |head| <= FRAME_EVIDENCE_BYTES
      && over == Verdict(fed, cap).Some?
      && (!over ==> since == |Open(fed, NEWLINE)| && head == Clip(Open(fed, NEWLINE)))
      && (over ==> since == Verdict(fed, cap).value.bytes)
    }

    constructor (cap: nat)
      ensures Valid() && this.cap == cap && fed == [] && !over
    {
      this.cap := cap;
      since, over, head, fed := 0, false, [], [];
      VerdictSplits([], cap);
    }

    /** `remember`: the front of the open line, up to the evidence limit. */
    method Remember(chunk: seq<byte>, from: nat, to: nat, ghost line: seq<byte>)
      requires from <= to <= |chunk| && head == Clip(line)
      modifies `head
      ensures head == Clip(line + chunk[from..to])
    {
      if |head| >= FRAME_EVIDENCE_BYTES { return; }
      var wanted := if FRAME_EVIDENCE_BYTES - |head| < to - from
                    then FRAME_EVIDENCE_BYTES - |head| else to - from;
      head := head + chunk[from..from + wanted];
    }

    /** For every chunk: nothing once tripped; otherwise what the whole stream so far deserves. */
    method Inspect(chunk: seq<byte>) returns (report: Option<Report>)
      requires Valid()
      modifies this
      ensures Valid()
      ensures old(over) ==> report == None && fed == old(fed) && since == old(since) && over
      ensures !old(over) ==> fed == old(fed) + chunk && report == Verdict(fed, cap)
    {
      if over { return None; }

      ghost var before := fed;
      fed := fed + chunk;
      var from := 0;
      assert before + chunk[..0] == before;
      VerdictSplits(before, cap);
      while true
        invariant 0 <= from <= |chunk| && fed == before + chunk && !over
        invariant since == |Open(before + chunk[..from], NEWLINE)|
        invariant head == Clip(Open(before + chunk[..from], NEWLINE))
        invariant FirstOver(Done(before + chunk[..from], NEWLINE), cap) == None
        decreases |chunk| - from
      {
        var end := NextSep(chunk, NEWLINE, from);
        NextSepIsFirst(chunk, NEWLINE, from);
        ghost var line := Open(before + chunk[..from], NEWLINE) + chunk[from..end];
        Remember(chunk, from, end, Open(before + chunk[..from], NEWLINE));
        since := since + (end - from);
        SegmentEnds(before, chunk, from, end, cap);

        if since > cap {
          over := true;
          return Some(Report(since, cap, head));
        }
        if end == |chunk| {
          return None;
        }
        since := 0;
        head := [];
        from := end + 1;
      }
    }

    function BytesSinceNewline(): (n: nat)
      requires Valid()
      reads this
      ensures !over ==> n == |Open(fed, NEWLINE)|
      ensures over ==> n == Verdict(fed, cap).value.bytes
    {
      since
    }

    predicate Tripped()
      requires Valid()
      reads this
      ensures Tripped() <==> exists i: nat, j: nat :: Overlong(fed, cap, i, j)
    {
      VerdictMeans(fed, cap);
      over
    }
  }

  /** One segment of a chunk: the line it finishes or leaves open, seen from the whole stream. */
  lemma {:induction false} SegmentEnds(before: seq<byte>, chunk: seq<byte>, from: nat, end: nat, cap: nat)
    requires from <= end <= |chunk| && Free(chunk[from..end], NEWLINE)
    requires end < |chunk| ==> chunk[end] == NEWLINE
    requires FirstOver(Done(before + chunk[..from], NEWLINE), cap) == None
    ensures var line := Open(before + chunk[..from], NEWLINE) + chunk[from..end];
            && (|line| > cap ==> Verdict(before + chunk, cap) == Some(Report(|line|, cap, Clip(line))))
            && (|line| <= cap && end == |chunk| ==>
                  Verdict(before + chunk, cap) == None && Open(before + chunk, NEWLINE) == line)
            && (|line| <= cap && end < |chunk| ==>
                  && FirstOver(Done(before + chunk[..end + 1], NEWLINE), cap) == None
                  && Open(before + chunk[..end + 1], NEWLINE) == [])
  {
    var a := before + chunk[..from];
    var run := chunk[from..end];
    var line := Open(a, NEWLINE) + run;
    OpenGrows(a, run, NEWLINE);
    assert a + run == before + chunk[..end];
    FirstOverOne(line, cap);
    FirstOverAppend(Done(a, NEWLINE), [line], cap);
    if end == |chunk| {
      assert before + chunk[..end] == before + chunk;
    } else {
      OpenCloses(a, run, NEWLINE);
      assert a + run + [NEWLINE] == before + chunk[..end + 1];
      var rest := chunk[end + 1..];
      assert before + chunk == before + chunk[..end + 1] + rest;
      SplitAppend(before + chunk[..end + 1], rest, NEWLINE);
      VerdictSplits(before + chunk, cap);
      FirstOverAppend(Done(a, NEWLINE) + [line], Done([] + rest, NEWLINE), cap);
    }
  }

  // ---------- Whole runs ----------

  function Concat(chunks: seq<seq<byte>>): seq<byte> {
    if chunks == [] then [] else Concat(Init(chunks)) + Last(chunks)
  }

  /** Reading a stream chunk by chunk: over every split, one report at most, on the first chunk by
      whose end the stream is over the cap, and it is the whole-stream verdict at that point. */
  method Watch(chunks: seq<seq<byte>>, cap: nat) returns (reports: seq<Option<Report>>)
    ensures |reports| == |chunks|
    ensures forall k | 0 <= k < |chunks| ::
              reports[k] == if Verdict(Concat(chunks[..k]), cap).Some? then None
                            else Verdict(Concat(chunks[..k + 1]), cap)
  {
    var guard := new Guard(cap);
    reports := [];
    for n := 0 to |chunks|
      invariant guard.Valid() && guard.cap == cap && |reports| == n
      invariant guard.over <==> Verdict(Concat(chunks[..n]), cap).Some?
      invariant !guard.over ==> guard.fed == Concat(chunks[..n])
      invariant forall k | 0 <= k < n ::
                  reports[k] == if Verdict(Concat(chunks[..k]), cap).Some? then None
                                else Verdict(Concat(chunks[..k + 1]), cap)
    {
      assert Init(chunks[..n + 1]) == chunks[..n];
      if guard.over { VerdictStays(Concat(chunks[..n]), chunks[n], cap); }
      var report := guard.Inspect(chunks[n]);
      reports := reports + [report];
    }
  }

  // ---------- The counter over whole runs ----------

  /** The first prefix of the chunks that is over the cap. */
  function TripAt(chunks: seq<seq<byte>>, cap: nat): (n: nat)
    requires Verdict(Concat(chunks), cap).Some?
    ensures n <= |chunks| && Verdict(Concat(chunks[..n]), cap).Some?
    ensures forall k | 0 <= k < n :: Verdict(Concat(chunks[..k]), cap).None?
  {
    EmptyIsFine(cap);
    if Verdict(Concat(Init(chunks)), cap).Some? then
      PrefixOfInit(chunks, TripAt(Init(chunks), cap));
      TripAt(Init(chunks), cap)
    else
      NoneBefore(chunks, cap);
      |chunks|
  }

  lemma {:induction false} EmptyIsFine(cap: nat)
    ensures Verdict(Concat([]), cap) == None
  {
    VerdictSplits([], cap);
  }

  lemma {:induction false} PrefixOfInit(chunks: seq<seq<byte>>, n: nat)
    requires chunks != [] && n <= |chunks| - 1
    ensures forall k | 0 <= k <= n :: Init(chunks)[..k] == chunks[..k]
  {
  }

  lemma {:induction false} NoneBefore(chunks: seq<seq<byte>>, cap: nat)
    requires chunks != [] && Verdict(Concat(Init(chunks)), cap).None?
    ensures chunks[..|chunks|] == chunks && forall k | 0 <= k < |chunks| :: Verdict(Concat(chunks[..k]), cap).None?
  {
    forall k | 0 <= k < |chunks| ensures Verdict(Concat(chunks[..k]), cap).None? {
      ConcatSplits(Init(chunks), k);
      assert Init(chunks)[..k] == chunks[..k];
      if Verdict(Concat(chunks[..k]), cap).Some? { VerdictStays(Concat(chunks[..k]), Concat(Init(chunks)[k..]), cap); }
    }
  }

  lemma {:induction false} ConcatSplits(chunks: seq<seq<byte>>, k: nat)
    requires k <= |chunks|
    ensures Concat(chunks) == Concat(chunks[..k]) + Concat(chunks[k..])
    decreases |chunks|
  {
    if k == |chunks| {
      assert chunks[..k] == chunks;
    } else {
      ConcatSplits(Init(chunks), k);
      TailOf(chunks, k);
      Regroup(Concat(chunks[..k]), Concat(Init(chunks)[k..]), Last(chunks));
    }
  }

  lemma {:induction false} TailOf(chunks: seq<seq<byte>>, k: nat)
    requires k < |chunks|
    ensures Init(chunks)[..k] == chunks[..k] && chunks[k..] != []
    ensures Init(chunks[k..]) == Init(chunks)[k..] && Last(chunks[k..]) == Last(chunks)
  {
  }

  lemma {:induction false} Regroup(a: seq<byte>, b: seq<byte>, c: seq<byte>)
    ensures a + b + c == a + (b + c)
  {
  }

  /** What the counter shows when these chunks have been fed. */
  function Counted(chunks: seq<seq<byte>>, cap: nat): nat {
    if Verdict(Concat(chunks), cap).None? then |Open(Concat(chunks), NEWLINE)|
    else Verdict(Concat(chunks[..TripAt(chunks, cap)]), cap).value.bytes
  }

  lemma {:induction false} CountedStep(chunks: seq<seq<byte>>, n: nat, cap: nat)
    requires n < |chunks| && Verdict(Concat(chunks[..n]), cap).Some?
    ensures Verdict(Concat(chunks[..n + 1]), cap).Some? && Counted(chunks[..n + 1], cap) == Counted(chunks[..n], cap)
  {
    assert Init(chunks[..n + 1]) == chunks[..n];
    VerdictStays(Concat(chunks[..n]), chunks[n], cap);
    var trip := TripAt(chunks[..n], cap);
    assert chunks[..n + 1][..trip] == chunks[..n][..trip];
  }

  /** Feeding a guard chunk by chunk, past the trip if there is one. */
  method FeedAll(chunks: seq<seq<byte>>, cap: nat) returns (guard: Guard)
    ensures fresh(guard) && guard.Valid() && guard.BytesSinceNewline() == Counted(chunks, cap)
    ensures guard.Tripped() <==> Verdict(Concat(chunks), cap).Some?
  {
    guard := new Guard(cap);
    EmptyIsFine(cap);
    for n := 0 to |chunks|
      invariant fresh(guard) && guard.Valid() && guard.cap == cap
      invariant guard.over <==> Verdict(Concat(chunks[..n]), cap).Some?
      invariant !guard.over ==> guard.fed == Concat(chunks[..n])
      invariant guard.since == Counted(chunks[..n], cap)
    {
      assert Init(chunks[..n + 1]) == chunks[..n];
      if guard.over { CountedStep(chunks, n, cap); } else { CountedAtTrip(chunks, n, cap); }
      var report := guard.Inspect(chunks[n]);
    }
    assert chunks[..|chunks|] == chunks;
  }

  lemma {:induction false} CountedAtTrip(chunks: seq<seq<byte>>, n: nat, cap: nat)
    requires n < |chunks| && Verdict(Concat(chunks[..n]), cap).None?
    ensures Verdict(Concat(chunks[..n + 1]), cap).Some? ==>
              Counted(chunks[..n + 1], cap) == Verdict(Concat(chunks[..n + 1]), cap).value.bytes
  {
    assert Init(chunks[..n + 1]) == chunks[..n];
    assert chunks[..n + 1][..n + 1] == chunks[..n + 1];
  }

  /** While the line that trips the guard is open, what follows it adds to it... */
  lemma {:induction false} OpenLineGrows(s: seq<byte>, rest: seq<byte>, cap: nat)
    requires Verdict(s, cap).Some? && FirstOver(Done(s + rest, NEWLINE), cap).None?
    ensures Open(s + rest, NEWLINE) == Open(s, NEWLINE) + rest
    ensures Verdict(s, cap).value.bytes == |Open(s, NEWLINE)|
  {
    SplitAppend(s, rest, NEWLINE);
    FirstOverAppend(Done(s, NEWLINE), Done(Open(s, NEWLINE) + rest, NEWLINE), cap);
    VerdictSplits(s, cap);
    FirstOverOne(Open(s, NEWLINE), cap);
    OpenIsFree(s, NEWLINE);
    LongLineStaysOpen(Open(s, NEWLINE), rest, cap);
  }

  /** ...and it holds no newline, or the line would be complete and over the cap. */
  lemma {:induction false} LongLineStaysOpen(line: seq<byte>, rest: seq<byte>, cap: nat)
    requires Free(line, NEWLINE) && |line| > cap && FirstOver(Done(line + rest, NEWLINE), cap).None?
    ensures Free(line + rest, NEWLINE) && Open(line + rest, NEWLINE) == line + rest
    decreases |rest|
  {
    if rest == [] {
      assert line + rest == line;
    } else {
      assert Init(line + rest) == line + Init(rest) && Last(line + rest) == Last(rest);
      FirstOverAppend(Done(line + Init(rest), NEWLINE), [Open(line + Init(rest), NEWLINE)], cap);
      LongLineStaysOpen(line, Init(rest), cap);
      FirstOverOne(line + Init(rest), cap);
      InitLast(line + rest);
    }
    FreeSplit(line + rest, NEWLINE);
  }

  /** Over every split into chunks: the counter is the length of the open line exactly where the stream is
      not over the cap, or, if the line that tripped the guard is still open, where nothing was fed behind
      the chunk that did, or, if it has ended, where the line open now is as long as what was reported. */
  lemma {:induction false} CounterIsOpenLine(chunks: seq<seq<byte>>, cap: nat)
    ensures var all := Concat(chunks);
            Counted(chunks, cap) == |Open(all, NEWLINE)| <==>
              || Verdict(all, cap).None?
              || (FirstOver(Done(all, NEWLINE), cap).None? && Concat(chunks[TripAt(chunks, cap)..]) == [])
              || (FirstOver(Done(all, NEWLINE), cap).Some?
                  && Verdict(Concat(chunks[..TripAt(chunks, cap)]), cap).value.bytes == |Open(all, NEWLINE)|)
  {
    if Verdict(Concat(chunks), cap).Some? {
      var trip := TripAt(chunks, cap);
      ConcatSplits(chunks, trip);
      if FirstOver(Done(Concat(chunks), NEWLINE), cap).None? {
        OpenLineGrows(Concat(chunks[..trip]), Concat(chunks[trip..]), cap);
      }
    }
  }

  lemma {:induction false} FrozenCounts()
    ensures Verdict(Concat([[1, 1, NEWLINE]]), 1).Some? && Verdict(Concat([[1, 1], [1]]), 1).Some?
    ensures Counted([[1, 1, NEWLINE]], 1) == 2 && Open(Concat([[1, 1, NEWLINE]]), NEWLINE) == []
    ensures Counted([[1, 1], [1]], 1) == 2 && Open(Concat([[1, 1], [1]]), NEWLINE) == [1, 1, 1]
  {
    var s: seq<byte> := [1, 1, NEWLINE];
    FreeSplit([1, 1], NEWLINE);
    FreeSplit([1, 1, 1], NEWLINE);
    assert Init(s) == [1, 1];
    VerdictSplits(s, 1);
    VerdictSplits([1, 1], 1);
    FirstOverOne([1, 1], 1);
    EmptyIsFine(1);
    TripsAtOnce(s, [], 1);
    TripsAtOnce([1, 1], [[1]], 1);
    assert [s] + [] == [s] && [[1, 1]] + [[1]] == [[1, 1], [1]];
    assert [1, 1] + [1] == [1, 1, 1];
  }

  lemma {:induction false} TripsAtOnce(first: seq<byte>, rest: seq<seq<byte>>, cap: nat)
    requires Verdict(first, cap).Some?
    ensures Concat([first] + rest) == first + Concat(rest) && Verdict(Concat([first] + rest), cap).Some?
    ensures Counted([first] + rest, cap) == Verdict(first, cap).value.bytes
  {
    var chunks := [first] + rest;
    ConcatSplits(chunks, 1);
    assert chunks[..1] == [first] && chunks[1..] == rest && Init([first]) == [];
    assert Concat([first]) == [] + first == first;
    VerdictStays(first, Concat(rest), cap);
    EmptyIsFine(cap);
    assert chunks[..0] == [];
    assert TripAt(chunks, cap) == 1;
  }

  /** It is not always. Tripped by a line of 2 bytes, a guard counts 2: over an empty open line, where that
      line ended in the same chunk, and over one of 3 bytes, where it went on in the next. */
  method CounterFreezes() returns (ended: Guard, longer: Guard)
    ensures fresh(ended) && ended.Valid() && ended.Tripped() && ended.BytesSinceNewline() == 2
    ensures fresh(longer) && longer.Valid() && longer.Tripped() && longer.BytesSinceNewline() == 2
    ensures Open(Concat([[1, 1, NEWLINE]]), NEWLINE) == [] && Open(Concat([[1, 1], [1]]), NEWLINE) == [1, 1, 1]
  {
    FrozenCounts();
    ended := FeedAll([[1, 1, NEWLINE]], 1);
    longer := FeedAll([[1, 1], [1]], 1);
  }
}
