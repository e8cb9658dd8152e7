/** Resuming an ACP attempt over many lives (resume-node.ts, resume.ts). */
module ResumeLives {
  import opened Options
  import opened Lines
  import opened Ledger
  import AcpTurn
  import AcpRun

  // What each life decides from the ledger, and what the ledger of all lives then guarantees.

  /** A life that resumes: the attempt as it is now configured (its session and its prompt are decided here),
      whether the policy insists on replay, what the probed row says about `resume`, the operator's answer to
      the gate, why the packet cannot be rebuilt, if it cannot, and its prompt, if it can, and what a session that
      goes on is told instead. */
  datatype Resume = Resume(
    request: AcpRun.Request, alwaysReplay: bool, canResume: Option<bool>, override: Option<string>,
    packetRefused: Option<Reason>, rebuilt: string, continuation: string)

  const OVERRIDE := "resume-across-version-change"

  // ---------- What the ledger says ----------

  /** The binary of the last start record. */
  function RecordedBinary(rows: seq<Row>): Option<Binary> {
    if rows == [] then None
    else if Last(rows).Started? then Some(Last(rows).binary)
    else RecordedBinary(Init(rows))
  }

  /** The session of the last `session.opened` row. */
  function JournalledSession(rows: seq<Row>): Option<string> {
    if rows == [] then None
    else if Last(rows).SessionOpened? then Some(Last(rows).id)
    else JournalledSession(Init(rows))
  }

  /** Row `k` is the last start record. */
  predicate IsLastStart(rows: seq<Row>, k: nat) {
    k < |rows| && rows[k].Started? && forall j | k < j < |rows| :: !rows[j].Started?
  }

  /** Row `k` is the last that opens a session. */
  predicate IsLastOpened(rows: seq<Row>, k: nat) {
    k < |rows| && rows[k].SessionOpened? && forall j | k < j < |rows| :: !rows[j].SessionOpened?
  }

  predicate NeverOpened(rows: seq<Row>) { forall k | 0 <= k < |rows| :: !rows[k].SessionOpened? }

  predicate NeverStarted(rows: seq<Row>) { forall k | 0 <= k < |rows| :: !rows[k].Started? }

  /** The binary recorded is that of the last start record. */
  lemma {:induction false} RecordedIsLast(rows: seq<Row>)
    ensures RecordedBinary(rows).None? <==> NeverStarted(rows)
    ensures forall b :: RecordedBinary(rows) == Some(b) <==>
              exists k: nat :: IsLastStart(rows, k) && rows[k].binary == b
  {
    if rows != [] {
      var n := |rows| - 1;
      RecordedIsLast(Init(rows));
      if rows[n].Started? {
        assert IsLastStart(rows, n);
      } else {
        forall k: nat ensures IsLastStart(rows, k) <==> IsLastStart(Init(rows), k) { }
      }
    }
  }

  /** The session journalled is that of the last row that opened one. */
  lemma {:induction false} JournalledIsLast(rows: seq<Row>)
    ensures JournalledSession(rows).None? <==> NeverOpened(rows)
    ensures forall id :: JournalledSession(rows) == Some(id) <==>
              exists k: nat :: IsLastOpened(rows, k) && rows[k].id == id
  {
    if rows != [] {
      var n := |rows| - 1;
      JournalledIsLast(Init(rows));
      if rows[n].SessionOpened? {
        assert IsLastOpened(rows, n);
      } else {
        forall k: nat ensures IsLastOpened(rows, k) <==> IsLastOpened(Init(rows), k) { }
      }
    }
  }

  method ReadRecordedBinary(rows: seq<Row>) returns (binary: Option<Binary>)
    ensures binary == RecordedBinary(rows)
  {
    binary := None;
    for n := 0 to |rows|
      invariant binary == RecordedBinary(rows[..n])
    {
      assert Init(rows[..n + 1]) == rows[..n];
      if rows[n].Started? { binary := Some(rows[n].binary); }
    }
    assert rows[..|rows|] == rows;
  }

  method ReadJournalledSession(rows: seq<Row>) returns (session: Option<string>)
    ensures session == JournalledSession(rows)
  {
    var n := |rows|;
    assert rows[..n] == rows;
    while n > 0
      invariant 0 <= n <= |rows| && JournalledSession(rows[..n]) == JournalledSession(rows)
    {
      assert Init(rows[..n]) == rows[..n - 1];
      n := n - 1;
      if rows[n].SessionOpened? { return Some(rows[n].id); }
    }
    return None;
  }

  datatype Field = Version | Sha256

  method BinaryDrift(recorded: Binary, current: Binary) returns (drift: seq<Field>)
    ensures Version in drift <==> recorded.version != current.version
    ensures Sha256 in drift <==> recorded.sha256 != current.sha256
    ensures drift == [] <==> recorded == current
  {
    drift := [];
    if recorded.version != current.version { drift := drift + [Version]; }
    if recorded.sha256 != current.sha256 { drift := drift + [Sha256]; }
  }

  // ---------- What a life decides ----------

  predicate Drifted(h: seq<Row>, q: Resume) {
    RecordedBinary(h).Some? && RecordedBinary(h).value != q.request.setup.binary
  }

  /** `selectResumeStrategy`, and a session to resume. */
  predicate Native(h: seq<Row>, q: Resume) {
    !q.alwaysReplay && q.canResume == Some(true) && JournalledSession(h).Some?
  }

  predicate Gated(h: seq<Row>, q: Resume) { Drifted(h, q) && q.override != Some(OVERRIDE) }

  predicate Refuses(h: seq<Row>, q: Resume) {
    Gated(h, q) || (!Native(h, q) && q.packetRefused.Some?)
  }

  /** What a life writes before it runs the attempt, or instead. */
  function Prelude(h: seq<Row>, q: Resume): seq<Row> {
    var current := q.request.setup.binary;
    if Gated(h, q) then [OverrideAsked(RecordedBinary(h).value, current), ResumeRefused, Suspended]
    else Permission(h, q) + [Decision(h, q)]
  }

  function Decision(h: seq<Row>, q: Resume): Row {
    if !Native(h, q) && q.packetRefused.Some? then Failed(q.packetRefused.value) else Resumed(Native(h, q))
  }

  /** The operator's answer names the versions, not the hashes. */
  function OverrideFor(from: Binary, to: Binary): Row { OverrideGiven(from.version, to.version) }

  function Permission(h: seq<Row>, q: Resume): seq<Row> {
    if Drifted(h, q) then [OverrideFor(RecordedBinary(h).value, q.request.setup.binary), OverrideNoted] else []
  }

  /** The attempt a life runs. */
  function Attempt(h: seq<Row>, q: Resume): AcpRun.Request {
    q.request.(setup := q.request.setup.(resume := if Native(h, q) then JournalledSession(h) else None),
               prompt := if Native(h, q) then q.continuation else q.rebuilt)
  }

  /** The decisions of `resumeAcpNode`, in order; the attempt to run, or none where it refuses. */
  method DecideResume(h: seq<Row>, q: Resume, book: Book) returns (attempt: Option<AcpRun.Request>)
    modifies book
    ensures Rows(book.batches) == Rows(old(book.batches)) + Prelude(h, q)
    ensures attempt == if Refuses(h, q) then None else Some(Attempt(h, q))
  {
    ghost var start := book.batches;
    var recorded := ReadRecordedBinary(h);
    var current := q.request.setup.binary;
    var drift: seq<Field> := [];
    if recorded.Some? { drift := BinaryDrift(recorded.value, current); }
    if recorded.Some? && |drift| > 0 {
      if q.override != Some(OVERRIDE) {
        WriteRow(book, OverrideAsked(recorded.value, current));
        WriteRow(book, ResumeRefused);
        WriteRow(book, Suspended);
        return None;
      }
      WriteRow(book, OverrideFor(recorded.value, current));
      WriteRow(book, OverrideNoted);
    }
    assert Rows(book.batches) == Rows(start) + Permission(h, q);
    attempt := ChooseStrategy(h, q, book);
  }

  method WriteRow(book: Book, row: Row)
    modifies book
    ensures Rows(book.batches) == Rows(old(book.batches)) + [row]
  {
    RowsPush(book.batches, [row]);
    book.Append(row);
  }

  method ChooseStrategy(h: seq<Row>, q: Resume, book: Book) returns (attempt: Option<AcpRun.Request>)
    requires !Gated(h, q)
    modifies book
    ensures Rows(old(book.batches)) + [if Refuses(h, q) then Failed(q.packetRefused.value) else Resumed(Native(h, q))]
         == Rows(book.batches)
    ensures attempt == if Refuses(h, q) then None else Some(Attempt(h, q))
  {
    var session := ReadJournalledSession(h);
    var native := !q.alwaysReplay && q.canResume == Some(true);
    if native && session.None? { native := false; }
    if !native && q.packetRefused.Some? {
      WriteRow(book, Failed(q.packetRefused.value));
      return None;
    }
    WriteRow(book, Resumed(native));
    return Some(q.request.(setup := q.request.setup.(resume := if native then session else None),
                           prompt := if native then q.continuation else q.rebuilt));
  }

  // ---------- Lives ----------

  /** A life of the attempt: the first is fresh, the others resume. It is killed after `cut` rows of
      its prelude, or else somewhere in its run. `asked` and `receipted` are the operator's
      interjections, and the receipts, that the ledger held when it began. */
  datatype Life =
    | Fresh(request: AcpRun.Request, asked: seq<nat>, receipted: set<nat>, happenings: seq<AcpRun.Happening>)
    | Resuming(resume: Resume, cut: Option<nat>, asked: seq<nat>, receipted: set<nat>,
          happenings: seq<AcpRun.Happening>)

  function RunOf(r: AcpRun.Request, l: Life): AcpRun.Node {
    AcpRun.Run(r, AcpRun.Begin(l.asked, l.receipted), l.happenings)
  }

  /** The life got past its prelude and runs the attempt. */
  predicate Runs(h: seq<Row>, l: Life) {
    l.Fresh? || (!Refuses(h, l.resume) && (l.cut.None? || l.cut.value >= |Prelude(h, l.resume)|))
  }

  function RequestOf(h: seq<Row>, l: Life): AcpRun.Request {
    if l.Fresh? then l.request else Attempt(h, l.resume)
  }

  function PreludeOf(h: seq<Row>, l: Life): seq<Row> {
    if l.Fresh? then []
    else if l.cut.Some? && l.cut.value < |Prelude(h, l.resume)| then Prelude(h, l.resume)[..l.cut.value]
    else Prelude(h, l.resume)
  }

  function Written(h: seq<Row>, l: Life): seq<Row> {
    PreludeOf(h, l) + if Runs(h, l) then RunOf(RequestOf(h, l), l).rows else []
  }

  function LedgerAfter(lives: seq<Life>): seq<Row> {
    if lives == [] then []
    else LedgerAfter(Init(lives)) + Written(LedgerAfter(Init(lives)), Last(lives))
  }

  /** The ledger begins empty, and every life adds what it writes. */
  lemma {:induction false} LedgerGrows(lives: seq<Life>, l: Life)
    ensures LedgerAfter([]) == [] && LedgerAfter(lives + [l]) == LedgerAfter(lives) + Written(LedgerAfter(lives), l)
  {
    assert Init(lives + [l]) == lives;
  }

  /** One fresh life, then resumed ones. */
  predicate OneFresh(lives: seq<Life>) {
    forall k | 0 <= k < |lives| :: (lives[k].Fresh? <==> k == 0) && AcpTurn.Ascending(lives[k].asked)
  }

  // ---------- Another binary only by override ----------

  /** Since the last start record, an override from its binary to `to` was given. */
  predicate Permits(rows: seq<Row>, to: Binary) {
    && rows != [] && !Last(rows).Started?
    && ((RecordedBinary(rows).Some? && Last(rows) == OverrideFor(RecordedBinary(rows).value, to))
        || Permits(Init(rows), to))
  }

  predicate MayStart(rows: seq<Row>, b: Binary) {
    RecordedBinary(rows).None? || RecordedBinary(rows) == Some(b) || Permits(rows, b)
  }

  /** Every start record was allowed by what stood before it. */
  predicate Guarded(rows: seq<Row>) {
    rows == [] || (Guarded(Init(rows)) && (Last(rows).Started? ==> MayStart(Init(rows), Last(rows).binary)))
  }

  lemma {:induction false} GuardedPush(rows: seq<Row>, row: Row, b: Binary)
    requires Guarded(rows) && MayStart(rows, b) && (row.Started? ==> row.binary == b)
    ensures Guarded(rows + [row]) && MayStart(rows + [row], b)
  {
    assert Init(rows + [row]) == rows;
  }

  lemma {:induction false} GuardedExtend(rows: seq<Row>, more: seq<Row>, b: Binary)
    requires Guarded(rows) && MayStart(rows, b)
    requires forall k | 0 <= k < |more| && more[k].Started? :: more[k].binary == b
    ensures Guarded(rows + more) && MayStart(rows + more, b)
    decreases |more|
  {
    if more == [] {
      assert rows + more == rows;
    } else {
      GuardedExtend(rows, Init(more), b);
      GuardedPush(rows + Init(more), Last(more), b);
      assert rows + Init(more) + [Last(more)] == rows + more;
    }
  }

  predicate Startless(rows: seq<Row>) { forall k | 0 <= k < |rows| :: !rows[k].Started? }

  lemma {:induction false} GuardedStartless(rows: seq<Row>, more: seq<Row>)
    requires Guarded(rows) && Startless(more)
    ensures Guarded(rows + more)
    decreases |more|
  {
    if more == [] {
      assert rows + more == rows;
    } else {
      GuardedStartless(rows, Init(more));
      assert Init(rows + more) == rows + Init(more) && Last(rows + more) == Last(more);
    }
  }

  lemma {:induction false} PreludeStartless(h: seq<Row>, q: Resume)
    ensures Startless(Prelude(h, q))
  {
  }

  /** Where a resume goes on, its binary may start. */
  lemma {:induction false} PreludePermits(h: seq<Row>, q: Resume)
    requires Guarded(h) && !Refuses(h, q)
    ensures Guarded(h + Prelude(h, q)) && MayStart(h + Prelude(h, q), q.request.setup.binary)
  {
    var b, last := q.request.setup.binary, Resumed(Native(h, q));
    if Drifted(h, q) {
      var given := OverrideFor(RecordedBinary(h).value, b);
      assert Init(h + [given]) == h;
      GuardedStartless(h, [given]);
      GuardedPush(h + [given], OverrideNoted, b);
      GuardedPush(h + [given] + [OverrideNoted], last, b);
      assert h + [given] + [OverrideNoted] + [last] == h + Prelude(h, q);
    } else {
      GuardedPush(h, last, b);
      assert h + [last] == h + Prelude(h, q);
    }
  }

  lemma {:induction false} RunStartsItsBinary(r: AcpRun.Request, l: Life)
    requires AcpTurn.Ascending(l.asked)
    ensures var rows := RunOf(r, l).rows;
            forall k | 0 <= k < |rows| && rows[k].Started? :: rows[k].binary == r.setup.binary
  {
    AcpRun.RunIsSound(r, l.asked, l.receipted, l.happenings);
  }

  lemma {:induction false} KilledLifeGuarded(h: seq<Row>, l: Life)
    requires Guarded(h) && !Runs(h, l)
    ensures Guarded(h + Written(h, l))
  {
    PreludeStartless(h, l.resume);
    GuardedStartless(h, PreludeOf(h, l));
    assert PreludeOf(h, l) + [] == PreludeOf(h, l);
  }

  lemma {:induction false} RunningLifeGuarded(h: seq<Row>, l: Life)
    requires Guarded(h) && Runs(h, l) && AcpTurn.Ascending(l.asked) && (l.Fresh? ==> h == [])
    ensures Guarded(h + Written(h, l))
  {
    var r := RequestOf(h, l);
    var before, run := PreludeOf(h, l), RunOf(r, l).rows;
    RunStartsItsBinary(r, l);
    if l.Resuming? { PreludePermits(h, l.resume); } else { assert h + before == []; }
    GuardedExtend(h + before, run, r.setup.binary);
    Regroup(h, before, run);
  }

  lemma {:induction false} Regroup(a: seq<Row>, b: seq<Row>, c: seq<Row>)
    ensures a + b + c == a + (b + c)
  {
  }

  lemma {:induction false} LifeGuarded(h: seq<Row>, l: Life)
    requires Guarded(h) && AcpTurn.Ascending(l.asked) && (l.Fresh? ==> h == [])
    ensures Guarded(h + Written(h, l))
  {
    if Runs(h, l) { RunningLifeGuarded(h, l); } else { KilledLifeGuarded(h, l); }
  }

  lemma {:induction false} LivesGuarded(lives: seq<Life>)
    requires OneFresh(lives)
    ensures Guarded(LedgerAfter(lives))
  {
    if lives != [] {
      LivesGuarded(Init(lives));
      LifeGuarded(LedgerAfter(Init(lives)), Last(lives));
    }
  }

  lemma {:induction false} RecordedIs(rows: seq<Row>, i: nat)
    requires i < |rows| && rows[i].Started?
    requires forall m | i < m < |rows| :: !rows[m].Started?
    ensures RecordedBinary(rows) == Some(rows[i].binary)
    decreases |rows|
  {
    if i < |rows| - 1 { RecordedIs(Init(rows), i); }
  }

  lemma {:induction false} PermitsMeans(rows: seq<Row>, i: nat, to: Binary)
    requires i < |rows| && rows[i].Started? && Permits(rows, to)
    requires forall m | i < m < |rows| :: !rows[m].Started?
    ensures exists k :: i < k < |rows| && rows[k] == OverrideFor(rows[i].binary, to)
    decreases |rows|
  {
    RecordedIs(rows, i);
    if Last(rows) == OverrideFor(rows[i].binary, to) {
      assert rows[|rows| - 1] == OverrideFor(rows[i].binary, to);
    } else {
      PermitsMeans(Init(rows), i, to);
      var k :| i < k < |Init(rows)| && Init(rows)[k] == OverrideFor(rows[i].binary, to);
      assert rows[k] == Init(rows)[k];
    }
  }

  lemma {:induction false} GuardedPrefix(rows: seq<Row>, n: nat)
    requires n <= |rows| && Guarded(rows)
    ensures Guarded(rows[..n])
    decreases |rows|
  {
    if n == |rows| {
      assert rows[..n] == rows;
    } else {
      GuardedPrefix(Init(rows), n);
      assert Init(rows)[..n] == rows[..n];
    }
  }

  lemma {:induction false} GuardedMeans(rows: seq<Row>, i: nat, j: nat)
    requires Guarded(rows) && i < j < |rows| && rows[i].Started? && rows[j].Started?
    requires forall m | i < m < j :: !rows[m].Started?
    requires rows[i].binary != rows[j].binary
    ensures exists k :: i < k < j && rows[k] == OverrideFor(rows[i].binary, rows[j].binary)
  {
    var before := rows[..j];
    GuardedPrefix(rows, j + 1);
    assert Init(rows[..j + 1]) == before;
    RecordedIs(before, i);
    PermitsMeans(before, i, rows[j].binary);
    var k :| i < k < |before| && before[k] == OverrideFor(before[i].binary, rows[j].binary);
    assert rows[k] == before[k];
  }

  /** In the ledger of one fresh life and any number of resumed ones, each killed anywhere: between
      two consecutive start records of different binaries the operator's override, naming the versions
      of both, stands. */
  lemma {:induction false} AnotherBinaryOnlyByOverride(lives: seq<Life>, i: nat, j: nat)
    requires OneFresh(lives) && i < j < |LedgerAfter(lives)|
    requires LedgerAfter(lives)[i].Started? && LedgerAfter(lives)[j].Started?
    requires forall m | i < m < j :: !LedgerAfter(lives)[m].Started?
    requires LedgerAfter(lives)[i].binary != LedgerAfter(lives)[j].binary
    ensures exists k :: i < k < j
              && LedgerAfter(lives)[k] == OverrideFor(LedgerAfter(lives)[i].binary, LedgerAfter(lives)[j].binary)
  {
    LivesGuarded(lives);
    GuardedMeans(LedgerAfter(lives), i, j);
  }

  /** A life that refuses starts nothing, and it refuses exactly where the binary drifted without the
      override, or where it must replay a packet that cannot be rebuilt. */
  lemma {:induction false} RefusedLifeStartsNothing(h: seq<Row>, l: Life)
    requires l.Resuming?
    ensures var q := l.resume;
            Refuses(h, q) <==>
              || ((exists k: nat :: IsLastStart(h, k) && h[k].binary != q.request.setup.binary)
                  && q.override != Some(OVERRIDE))
              || ((q.alwaysReplay || q.canResume != Some(true) || NeverOpened(h)) && q.packetRefused.Some?)
    ensures Refuses(h, l.resume) ==> Startless(Written(h, l))
  {
    RecordedIsLast(h);
    JournalledIsLast(h);
    PreludeStartless(h, l.resume);
    if Refuses(h, l.resume) { assert PreludeOf(h, l) + [] == PreludeOf(h, l); }
  }

  /** What a resumed life writes first, over positions in the ledger: where the last start record names another
      binary and the override was not given, the question, the refusal and the suspension, and nothing else; and
      else the override where it was needed, and one row that says how it goes on, or why the packet is gone. */
  lemma {:induction false} PreludeIs(h: seq<Row>, q: Resume, k: nat)
    requires IsLastStart(h, k) || NeverStarted(h)
    ensures var current := q.request.setup.binary;
            var drifted := IsLastStart(h, k) && h[k].binary != current;
            var native := !q.alwaysReplay && q.canResume == Some(true) && !NeverOpened(h);
            Prelude(h, q) ==
              if drifted && q.override != Some("resume-across-version-change")
              then [OverrideAsked(h[k].binary, current), ResumeRefused, Suspended]
              else (if drifted then [OverrideGiven(h[k].binary.version, current.version), OverrideNoted] else [])
                   + [if native then Resumed(true)
                      else if q.packetRefused.Some? then Failed(q.packetRefused.value) else Resumed(false)]
  {
    RecordedIsLast(h);
    JournalledIsLast(h);
    if IsLastStart(h, k) { RecordedIs(h, k); }
  }

  /** Rows that neither start a binary nor open a session. */
  predicate Undeciding(rows: seq<Row>) {
    forall k | 0 <= k < |rows| :: !rows[k].Started? && !rows[k].SessionOpened?
  }

  lemma {:induction false} UndecidingKeeps(h: seq<Row>, rows: seq<Row>)
    requires Undeciding(rows)
    ensures RecordedBinary(h + rows) == RecordedBinary(h) && JournalledSession(h + rows) == JournalledSession(h)
    decreases |rows|
  {
    if rows == [] {
      assert h + rows == h;
    } else {
      UndecidingKeeps(h, Init(rows));
      assert Init(h + rows) == h + Init(rows) && Last(h + rows) == Last(rows);
    }
  }

  lemma {:induction false} PreludeUndeciding(h: seq<Row>, l: Life)
    requires l.Resuming?
    ensures Undeciding(PreludeOf(h, l))
  {
  }

  /** No life of `more` gets to run the attempt: each refuses, or is killed before. */
  predicate NoneRuns(lives: seq<Life>, more: seq<Life>) {
    more == [] || (NoneRuns(lives, Init(more)) && !Runs(LedgerAfter(lives + Init(more)), Last(more)))
  }

  /** Any number of lives that refuse or are killed before they run leave the node where it was: whether
      a life refuses, and which attempt it runs, is decided as if they had not been. A gate that was not
      answered stays closed, and one answered for a life that did not start is asked again. */
  lemma {:induction false} RefusalsChangeNothing(lives: seq<Life>, more: seq<Life>, q: Resume)
    requires NoneRuns(lives, more)
    ensures var h, now := LedgerAfter(lives), LedgerAfter(lives + more);
            && (Refuses(now, q) <==> Refuses(h, q)) && (Gated(now, q) <==> Gated(h, q))
            && Attempt(now, q) == Attempt(h, q)
    decreases |more|
  {
    if more == [] {
      assert lives + more == lives;
    } else {
      var front, l := Init(more), Last(more);
      var before := LedgerAfter(lives + front);
      RefusalsChangeNothing(lives, front, q);
      assert Init(lives + more) == lives + front && Last(lives + more) == l;
      PreludeUndeciding(before, l);
      assert Written(before, l) == PreludeOf(before, l) + [];
      UndecidingKeeps(before, Written(before, l));
    }
  }

  /** In the ledger of any lives: the next resumed life asks to resume a session only where the policy and
      the probed row allow it, and then the one that was opened last; it opens a new one only where they do
      not, or none was ever opened, and its packet could be rebuilt. A session that goes on is not sent its
      packet again, and a new one is sent the packet as rebuilt. */
  lemma {:induction false} ResumesTheJournalledSession(lives: seq<Life>, l: Life)
    requires l.Resuming? && Runs(LedgerAfter(lives), l) && AcpTurn.Ascending(l.asked)
    ensures var h, q := LedgerAfter(lives), l.resume;
            var frames := RunOf(RequestOf(h, l), l).turn.frames;
            forall k | 0 <= k < |frames| ::
              && (frames[k].ResumeSession? ==>
                    && !q.alwaysReplay && q.canResume == Some(true)
                    && (exists m: nat :: IsLastOpened(h, m) && h[m].id == frames[k].id)
                    && RequestOf(h, l).prompt == q.continuation)
              && (frames[k].NewSession? ==>
                    && (q.alwaysReplay || q.canResume != Some(true) || NeverOpened(h))
                    && q.packetRefused.None? && RequestOf(h, l).prompt == q.rebuilt)
  {
    var h := LedgerAfter(lives);
    JournalledIsLast(h);
    AcpRun.RunIsSound(RequestOf(h, l), l.asked, l.receipted, l.happenings);
  }
}
