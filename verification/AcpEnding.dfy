/** How an ACP attempt ends, read off what happened (run-node.ts). */
module AcpEnding {
  import opened Options
  import opened Lines
  import opened Ledger
  import opened AcpTurn
  import opened AcpRun
  import opened ScopeAudit
  import FrameGuard

  // Which happening was the spawn, which ended the race, which was the child's exit, and what the runner
  // itself has appended by then and appends after it.

  /** An attempt: what it is asked, what the ledger held before it, and what happens. */
  datatype Try = Try(r: Request, asked: seq<nat>, receipted: set<nat>, happenings: seq<Happening>)

  /** Behind the first `n` happenings. */
  function After(t: Try, n: nat): Node
    requires n <= |t.happenings|
  {
    AcpRun.Run(t.r, Begin(t.asked, t.receipted), t.happenings[..n])
  }

  function Whole(t: Try): Node { After(t, |t.happenings|) }

  /** How often the runner went on, in this stretch. */
  function Goes(happenings: seq<Happening>, from: nat, to: nat): nat
    requires from <= to <= |happenings|
  {
    if from == to then 0 else Goes(happenings, from, to - 1) + if happenings[to - 1].Go? then 1 else 0
  }

  // ---------- The runner's rows ----------

  predicate OfRunner(row: Row) {
    || row.Scheduled? || row.PinViolated? || row.Unschedulable? || row.RateLimited? || row.Wake?
    || row.ScopeWarning? || row.BudgetConsumed? || Terminal(row)
  }

  /** The runner's rows, in order: those that are not the program's. */
  function Runner(rows: seq<Row>): seq<Row> {
    if rows == [] then [] else Runner(Init(rows)) + if OfRunner(Last(rows)) then [Last(rows)] else []
  }

  lemma {:induction false} RunnerPush(rows: seq<Row>, row: Row)
    ensures Runner(rows + [row]) == Runner(rows) + if OfRunner(row) then [row] else []
  {
    assert Init(rows + [row]) == rows;
  }

  lemma {:induction false} RunnerPushes(rows: seq<Row>, batch: Batch)
    requires |batch| <= 2 && forall k | 0 <= k < |batch| :: OfRunner(batch[k])
    ensures Runner(rows + batch) == Runner(rows) + batch
  {
    if |batch| == 0 {
      assert rows + batch == rows;
    } else {
      RunnerPush(rows, batch[0]);
      if |batch| == 1 {
        assert rows + batch == rows + [batch[0]];
      } else {
        RunnerPush(rows + [batch[0]], batch[1]);
        assert rows + batch == rows + [batch[0]] + [batch[1]];
      }
    }
  }

  /** What the program does adds nothing to the runner's rows. */
  lemma {:induction false} DriveAddsNone(r: Request, s: Node, e: Event)
    requires Plain(r.setup, s.turn)
    ensures Runner(Drive(r, s, e).rows) == Runner(s.rows)
  {
    DriveAppends(r, s, e);
    var t := AcpTurn.Next(r.setup, s.turn, e);
    if t.filed != s.turn.filed {
      var row :| t.filed == s.turn.filed + [row] && Drive(r, s, e).rows == s.rows + [row] && OwnRow(r.setup, row);
      RunnerPush(s.rows, row);
    }
  }

  // ---------- What was said and sent ----------

  /** One update says its own text... */
  lemma {:induction false} SaidByOne(textOf: string -> string, update: string)
    ensures AgentText(textOf, []) == ""
    ensures AgentText(textOf, [update]) == textOf(update)
  {
    assert Init([update]) == [];
  }

  /** ...and the updates of `a` and then of `b` what `a` say and then what `b` say. */
  lemma {:induction false} SaidInOrder(textOf: string -> string, a: seq<string>, b: seq<string>)
    ensures AgentText(textOf, a + b) == AgentText(textOf, a) + AgentText(textOf, b)
    decreases |b|
  {
    if b == [] {
      assert a + b == a;
    } else {
      var said := textOf(Last(b));
      assert Init(a + b) == a + Init(b) && Last(a + b) == Last(b);
      SaidInOrder(textOf, a, Init(b));
      assert AgentText(textOf, a + b) == AgentText(textOf, a) + (AgentText(textOf, Init(b)) + said);
    }
  }

  /** Text `part` stands in `whole` at `from`. */
  predicate StandsIn(whole: string, part: string, from: nat) {
    from + |part| <= |whole| && whole[from..from + |part|] == part
  }

  lemma {:induction false} SentAtPlace(r: Request, prompts: seq<Prompt>, k: nat)
    requires k < |prompts|
    ensures InPlace(PromptText(r, prompts), PromptText(r, prompts[..k]), SentText(r, prompts[k], k), k == |prompts| - 1)
  {
    var before, text := PromptText(r, prompts[..k]), SentText(r, prompts[k], k);
    if k < |prompts| - 1 {
      SentAtPlace(r, Init(prompts), k);
      assert Init(prompts)[..k] == prompts[..k];
      SentStays(PromptText(r, Init(prompts)), SentText(r, Last(prompts), |prompts| - 1), before, text);
    } else {
      assert prompts[..k] == Init(prompts);
    }
  }

  /** Behind what was sent before, if anything was, stand one blank line and this text; the last ends it all. */
  predicate InPlace(all: string, before: string, text: string, last: bool) {
    && (before == "" ==> StandsIn(all, text, 0))
    && (before != "" ==> StandsIn(all, before + "\n\n", 0) && StandsIn(all, text, |before| + 2))
    && (last ==> |all| == |text| + if before == "" then 0 else |before| + 2)
  }

  /** Each prompt's text stands whole in what was sent, in its place. The first work prompt is the packet's, every
      later one the continuation. */
  lemma {:induction false} SentInOrder(r: Request, prompts: seq<Prompt>, k: nat)
    requires k < |prompts|
    ensures var text := match prompts[k]
              case Work => if k == 0 then r.prompt else r.continuation
              case Pins => r.pinned
              case Correction(q) => r.guidance(q);
            InPlace(PromptText(r, prompts), PromptText(r, prompts[..k]), text, k == |prompts| - 1)
    ensures PromptText(r, []) == ""
  {
    SentAtPlace(r, prompts, k);
  }

  lemma {:induction false} SentStays(sent: string, more: string, before: string, text: string)
    ensures var all := if sent == "" then more else sent + "\n\n" + more;
            && (StandsIn(sent, text, 0) ==> StandsIn(all, text, 0))
            && (StandsIn(sent, before + "\n\n", 0) ==> StandsIn(all, before + "\n\n", 0))
            && (before != "" && StandsIn(sent, text, |before| + 2) ==> StandsIn(all, text, |before| + 2))
  {
  }

  // ---------- Before the spawn ----------

  lemma {:induction false} AfterNext(t: Try, n: nat)
    requires n < |t.happenings| && Ascending(t.asked)
    ensures After(t, n + 1) == AcpRun.Next(t.r, After(t, n), t.happenings[n])
    ensures Sound(t.r, t.receipted, After(t, n))
  {
    assert Init(t.happenings[..n + 1]) == t.happenings[..n];
    RunIsSound(t.r, t.asked, t.receipted, t.happenings[..n]);
  }

  /** The first `g` batches, or all. */
  function Taken(batches: seq<Batch>, g: nat): seq<Batch> { if g < |batches| then batches[..g] else batches }

  lemma {:induction false} TakenNext(batches: seq<Batch>, g: nat)
    ensures Rows(Taken(batches, g + 1)) == Rows(Taken(batches, g)) + if g < |batches| then batches[g] else []
  {
    if g < |batches| {
      RowsPush(batches[..g], batches[g]);
      assert batches[..g + 1] == batches[..g] + [batches[g]];
      if g + 1 == |batches| { assert batches[..g + 1] == batches; }
    }
  }

  /** What is looked at before a process exists, in this order. */
  function Checks(r: Request): seq<Option<Reason>> {
    [if r.pinsMissing then Some("safety.pin-integrity-violated") else None, FrameGuard.LimitRefusal(r.frameLimit),
     r.recording, r.undeclarable, Unwired(r.subject), r.admission]
  }

  /** The refusal is the first that stands. */
  lemma {:induction false} RefusalIsFirst(r: Request)
    ensures IsFirstOf(Checks(r), Refusal(r))
  {
    var c := Checks(r);
    var last := FirstOf(c[4], c[5]);
    assert c[4..] == [c[4]] + [c[5]] && c[3..] == [c[3]] + c[4..] && c[2..] == [c[2]] + c[3..];
    assert c[1..] == [c[1]] + c[2..] && c == [c[0]] + c[1..];
    FirstOfIs(c[4], [c[5]], c[5]);
    FirstOfIs(c[3], c[4..], last);
    FirstOfIs(c[2], c[3..], FirstOf(c[3], last));
    FirstOfIs(c[1], c[2..], FirstOf(c[2], FirstOf(c[3], last)));
    FirstOfIs(c[0], c[1..], FirstOf(c[1], FirstOf(c[2], FirstOf(c[3], last))));
  }

  /** What a refused attempt appends, one batch each time the runner goes on. */
  function RefusedRows(r: Request): seq<Batch>
    requires Refusal(r).Some?
  {
    [[Scheduled], []]
    + (if r.pinsMissing then [[PinViolated]] else if Refusal(r).value == UNSCHEDULABLE then [[Unschedulable]] else [])
    + [[Failed(Refusal(r).value)]]
  }

  predicate Refuses(t: Try, s: Node, g: nat)
    requires Refusal(t.r).Some?
  {
    var due := RefusedRows(t.r);
    && !s.spawned && s.rows == Rows(Taken(due, g))
    && (s.outer.Returned? <==> g >= |due|)
    && (s.outer.Returned? ==> s.outer.row == |s.rows| - 1)
    && (g < |due| ==>
          s.outer == Early(if g == 0 then Scheduling else if g == 1 then Deciding
                           else if g == |due| - 1 then Refusing
                           else if t.r.pinsMissing then MarkingPins else MarkingUnschedulable))
  }

  /** A refused attempt, behind anything that happened: its batches as far as the runner went on, and it returns
      with the last of them, the refusal. */
  lemma {:induction false} RefusedEnds(t: Try, n: nat)
    requires n <= |t.happenings| && Refusal(t.r).Some? && Ascending(t.asked)
    ensures Refuses(t, After(t, n), Goes(t.happenings, 0, n))
  {
    if n > 0 {
      var s, g, due := After(t, n - 1), Goes(t.happenings, 0, n - 1), RefusedRows(t.r);
      RefusedEnds(t, n - 1);
      AfterNext(t, n - 1);
      RefusedNext(t, s, t.happenings[n - 1], g);
    }
  }

  lemma {:induction false} RefusedNext(t: Try, s: Node, h: Happening, g: nat)
    requires Refusal(t.r).Some? && Refuses(t, s, g)
    ensures Refuses(t, AcpRun.Next(t.r, s, h), if h.Go? then g + 1 else g)
  {
    var due := RefusedRows(t.r);
    if h.Go? && g < |due| {
      TakenNext(due, g);
    } else if h.Program? {
      assert s.rows + [] == s.rows;
    }
  }

  // ---------- What happened ----------

  /** The spawn answers, once the runner has decided. */
  predicate Spawns(t: Try, k: nat) {
    k < |t.happenings| && t.happenings[k].Spawned? && Goes(t.happenings, 0, k) >= 2
  }

  /** The race is over: it fails, or settles with a program that has left or thrown. */
  predicate Settles(t: Try, k: nat) {
    && k < |t.happenings|
    && (t.happenings[k].RaceFails?
        || (t.happenings[k].RaceSettles? && (After(t, k).turn.at.Left? || After(t, k).turn.at.Threw?)))
  }

  /** Happening `a` was the spawn. */
  predicate IsSpawn(t: Try, a: nat) { Spawns(t, a) && NoSpawn(t, a) }

  predicate NoSpawn(t: Try, to: nat) { forall k | 0 <= k < to :: !Spawns(t, k) }

  predicate NoSettling(t: Try, from: nat, to: nat) { forall k | from <= k < to :: !Settles(t, k) }

  /** Happening `b` decided it: a refused spawn, or the end of the race. */
  predicate IsOver(t: Try, a: nat, b: nat) {
    && IsSpawn(t, a)
    && if t.happenings[a].refused.Some? then b == a
       else a < b && Settles(t, b) && NoSettling(t, a + 1, b)
  }

  predicate NoExit(t: Try, from: nat, to: nat)
    requires to <= |t.happenings|
  {
    forall k | from <= k < to :: !t.happenings[k].Exited?
  }

  /** Happening `x` was the child's exit. */
  predicate IsExit(t: Try, a: nat, b: nat, x: nat) {
    IsOver(t, a, b) && b < x < |t.happenings| && t.happenings[x].Exited? && NoExit(t, b + 1, x)
  }

  /** What failed: the spawn, the race, or the program. */
  function Failure(t: Try, a: nat, b: nat): Option<Reason>
    requires IsOver(t, a, b)
  {
    match t.happenings[b]
    case Spawned(refused) => refused
    case RaceFails(reason) => Some(reason)
    case _ => if After(t, b).turn.at.Threw? then Some(After(t, b).turn.at.reason) else None
  }

  /** Before the spawn, where nothing refuses: the runner is as far as it went on. */
  predicate Decides(s: Node, g: nat) {
    && s.outer == Early(if g == 0 then Scheduling else if g == 1 then Deciding else Spawning)
    && !s.spawned && Runner(s.rows) == if g == 0 then [] else [Scheduled]
  }

  lemma {:induction false} DecidesNext(r: Request, s: Node, h: Happening, g: nat)
    requires Refusal(r).None? && Decides(s, g) && (h.Spawned? ==> g < 2)
    ensures Decides(AcpRun.Next(r, s, h), if h.Go? then g + 1 else g)
  {
    if h.Go? && g == 0 {
      RunnerPushes(s.rows, [Scheduled]);
    } else if h.Program? {
      assert s.rows + [] == s.rows;
    }
  }

  lemma {:induction false} BeforeSpawn(t: Try, n: nat)
    requires n <= |t.happenings| && Refusal(t.r).None? && Ascending(t.asked)
    requires NoSpawn(t, n)
    ensures Decides(After(t, n), Goes(t.happenings, 0, n))
  {
    if n > 0 {
      BeforeSpawn(t, n - 1);
      AfterNext(t, n - 1);
      assert !Spawns(t, n - 1);
      DecidesNext(t.r, After(t, n - 1), t.happenings[n - 1], Goes(t.happenings, 0, n - 1));
    }
  }

  predicate Races(s: Node) { s.outer.Racing? && s.spawned && Runner(s.rows) == [Scheduled] }

  lemma {:induction false} RacesNext(r: Request, s: Node, h: Happening)
    requires Races(s) && Plain(r.setup, s.turn)
    requires !h.RaceFails? && !(h.RaceSettles? && (s.turn.at.Left? || s.turn.at.Threw?))
    ensures Races(AcpRun.Next(r, s, h))
  {
    if h.Program? { DriveAddsNone(r, s, h.event); }
  }

  lemma {:induction false} RaceBegins(t: Try, a: nat)
    requires Refusal(t.r).None? && Ascending(t.asked) && IsSpawn(t, a) && t.happenings[a].refused.None?
    ensures Races(After(t, a + 1))
  {
    BeforeSpawn(t, a);
    AfterNext(t, a);
  }

  lemma {:induction false} WhileRacing(t: Try, a: nat, n: nat)
    requires Refusal(t.r).None? && Ascending(t.asked)
    requires IsSpawn(t, a) && t.happenings[a].refused.None? && a < n <= |t.happenings|
    requires NoSettling(t, a + 1, n)
    ensures Races(After(t, n))
  {
    if n == a + 1 {
      RaceBegins(t, a);
    } else {
      WhileRacing(t, a, n - 1);
      AfterNext(t, n - 1);
      assert !Settles(t, n - 1);
      RacesNext(t.r, After(t, n - 1), t.happenings[n - 1]);
    }
  }

  predicate Waits(t: Try, a: nat, b: nat, s: Node)
    requires IsOver(t, a, b)
  {
    && s.outer == AcpRun.Awaiting(Failure(t, a, b)) && Runner(s.rows) == [Scheduled]
  }

  lemma {:induction false} OnceOver(t: Try, a: nat, b: nat)
    requires Refusal(t.r).None? && Ascending(t.asked) && IsOver(t, a, b)
    ensures Waits(t, a, b, After(t, b + 1))
  {
    AfterNext(t, b);
    if b == a { BeforeSpawn(t, a); } else { WhileRacing(t, a, b); }
  }

  lemma {:induction false} UntilExit(t: Try, a: nat, b: nat, n: nat)
    requires Refusal(t.r).None? && Ascending(t.asked)
    requires IsOver(t, a, b) && b < n <= |t.happenings| && NoExit(t, b + 1, n)
    ensures Waits(t, a, b, After(t, n))
  {
    if n == b + 1 {
      OnceOver(t, a, b);
    } else {
      UntilExit(t, a, b, n - 1);
      AfterNext(t, n - 1);
      if t.happenings[n - 1].Program? && After(t, n - 1).spawned {
        DriveAddsNone(t.r, After(t, n - 1), t.happenings[n - 1].event);
      } else if t.happenings[n - 1].Program? && t.happenings[n - 1].event.Interject? {
        DriveAddsNone(t.r, After(t, n - 1), t.happenings[n - 1].event);
      }
    }
  }

  // ---------- What follows the exit ----------

  /** What became of the attempt: a failure, an escalated cancel, a turn that stopped cancelled, or a finished
      turn, with all that was sent and all that was said. */
  datatype Fate = Fails(reason: Reason) | TimesOut | Stopped(byUser: bool) | Finishes(sent: string, said: string)

  /** The runner's appends behind the exit, one batch each time it goes on. */
  function Due(r: Request, fate: Fate): seq<Batch> {
    match fate
    case TimesOut => [[Failed("agent-timed-out")]]
    case Fails(q) =>
      if r.limitOf(q).None? then [[Failed(q)]]
      else
        var resets := r.limitOf(q).value;
        [[RateLimited(resets, q)]] + (if resets.Some? && r.wakes then [[Wake(resets.value)]] else []) + [[Failed(q)]]
    case Stopped(byUser) => [[CancelNoted(byUser)]]
    case Finishes(sent, said) =>
      [if r.subject.declared != [] && r.subject.auditor && r.subject.found.warning then [ScopeWarning] else [],
       [BudgetConsumed(Estimated((|sent| + 3) / 4, (|said| + 3) / 4)),
        if WorkProductRefusal(r.subject).Some? then Failed(WorkProductRefusal(r.subject).value)
        else Completed(said, (|said| + 3) / 4)]]
  }

  function PostAt(r: Request, fate: Fate, g: nat): Post
    requires g < |Due(r, fate)|
  {
    match fate
    case TimesOut => Failing("agent-timed-out")
    case Fails(q) =>
      if g == |Due(r, fate)| - 1 then Failing(q)
      else if g == 0 then Limiting(q, r.limitOf(q).value) else Waking(q, r.limitOf(q).value.value)
    case Stopped(_) => CancelNoting
    case Finishes(_, _) => if g == 0 then Auditing else Warned
  }

  /** The runner has gone on `g` times behind the exit. */
  predicate Stands(r: Request, fate: Fate, s: Node, g: nat) {
    var due := Due(r, fate);
    && Runner(s.rows) == [Scheduled] + Rows(Taken(due, g))
    && (if g < |due| then s.outer == Late(PostAt(r, fate, g))
        else s.outer.Returned? && s.outer.row < |s.rows| && s.rows[s.outer.row] == Last(Last(due)))
  }

  /** What the fate says of the program is what it still says. */
  predicate Agrees(r: Request, fate: Fate, s: Node) {
    fate.Finishes? ==>
      && s.turn.pipe.pulled <= |s.turn.pipe.read| && Spoken(r, s) == fate.said
      && PromptText(r, s.turn.talk.prompts) == fate.sent
  }

  lemma {:induction false} DueIsTheRunners(r: Request, fate: Fate, g: nat)
    requires g < |Due(r, fate)|
    ensures |Due(r, fate)[g]| <= 2 && forall k | 0 <= k < |Due(r, fate)[g]| :: OfRunner(Due(r, fate)[g][k])
    ensures g == |Due(r, fate)| - 1 ==> Due(r, fate)[g] != []
  {
  }

  lemma {:induction false} LateAppends(r: Request, fate: Fate, s: Node, g: nat)
    requires g < |Due(r, fate)| && s.outer == Late(PostAt(r, fate, g)) && Agrees(r, fate, s)
    requires fate.Stopped? ==> fate.byUser == s.turn.control.cancel.Some?
    ensures var due, next := Due(r, fate), GoLate(r, s, PostAt(r, fate, g));
            && next.rows == s.rows + due[g]
            && (g < |due| - 1 ==> next.outer == Late(PostAt(r, fate, g + 1)))
            && (g == |due| - 1 ==>
                  next.rows != [] && next.outer == Returned(|next.rows| - 1) && Last(next.rows) == Last(Last(due)))
  {
    if s.outer.post.Auditing? { assert s.rows + [] == s.rows; }
  }

  lemma {:induction false} GrowsTo(rows: seq<Row>, taken: seq<Row>, batch: Batch)
    requires rows == [Scheduled] + taken
    ensures rows + batch == [Scheduled] + (taken + batch)
  {
  }

  lemma {:induction false} GoStands(r: Request, fate: Fate, s: Node, g: nat)
    requires Stands(r, fate, s, g) && Agrees(r, fate, s)
    requires fate.Stopped? && g == 0 ==> fate.byUser == s.turn.control.cancel.Some?
    ensures Stands(r, fate, AcpRun.Next(r, s, Go), g + 1)
  {
    var due := Due(r, fate);
    TakenNext(due, g);
    if g < |due| {
      LateAppends(r, fate, s, g);
      DueIsTheRunners(r, fate, g);
      RunnerPushes(s.rows, due[g]);
      GrowsTo(Runner(s.rows), Rows(Taken(due, g)), due[g]);
    }
  }

  lemma {:induction false} StandsNext(r: Request, fate: Fate, s: Node, h: Happening, g: nat)
    requires Stands(r, fate, s, g) && Agrees(r, fate, s) && Plain(r.setup, s.turn)
    requires h.Go? && fate.Stopped? && g == 0 ==> fate.byUser == s.turn.control.cancel.Some?
    ensures Stands(r, fate, AcpRun.Next(r, s, h), if h.Go? then g + 1 else g)
  {
    if h.Go? {
      GoStands(r, fate, s, g);
    } else if h.Program? {
      DriveAddsNone(r, s, h.event);
      DriveAppends(r, s, h.event);
    }
  }

  /** Where the runner next goes on. */
  function FirstGo(happenings: seq<Happening>, from: nat): (n: nat)
    requires from <= |happenings|
    ensures from <= n <= |happenings|
    decreases |happenings| - from
  {
    if from == |happenings| || happenings[from].Go? then from else FirstGo(happenings, from + 1)
  }

  lemma {:induction false} NoGoBefore(happenings: seq<Happening>, from: nat, n: nat)
    requires from <= n < |happenings| && Goes(happenings, from, n) == 0 && happenings[n].Go?
    ensures FirstGo(happenings, from) == n
    decreases n - from
  {
    if from < n {
      GoesFrom(happenings, from, n);
      NoGoBefore(happenings, from + 1, n);
    }
  }

  lemma {:induction false} GoesFrom(happenings: seq<Happening>, from: nat, n: nat)
    requires from < n <= |happenings|
    ensures Goes(happenings, from, n) == (if happenings[from].Go? then 1 else 0) + Goes(happenings, from + 1, n)
  {
    if from + 1 < n { GoesFrom(happenings, from, n - 1); }
  }

  function FateFor(r: Request, turn: Turn, failure: Option<Reason>, byUser: bool): Fate {
    if failure.Some? then (if turn.control.escalated then TimesOut else Fails(failure.value))
    else if LastCancelled(turn) then Stopped(byUser)
    else Finishes(PromptText(r, turn.talk.prompts), AgentText(r.textOf, Chunks(turn.filed)))
  }

  predicate LastCancelled(turn: Turn) { turn.talk.stops != [] && Last(turn.talk.stops).Cancelled? }

  /** What became of it: a failure is a time-out and nothing else where a cancel had escalated by the exit;
      without one the last turn's stop says whether the attempt was cancelled or is finished. */
  function FateOf(t: Try, a: nat, b: nat, x: nat): Fate
    requires IsExit(t, a, b, x)
  {
    FateFor(t.r, After(t, x).turn, Failure(t, a, b),
            After(t, FirstGo(t.happenings, x + 1)).turn.control.cancel.Some?)
  }

  predicate Silent(first: Turn, now: Turn) {
    now.at.Left? && now.talk == first.talk && now.filed == first.filed
  }

  lemma {:induction false} LeftNext(r: Request, first: Turn, s: Node, h: Happening)
    requires Silent(first, s.turn)
    ensures Silent(first, AcpRun.Next(r, s, h).turn)
  {
  }

  /** A program that has left says nothing more. */
  lemma {:induction false} StaysLeft(t: Try, first: Turn, b: nat, n: nat)
    requires b <= n <= |t.happenings| && Ascending(t.asked) && Silent(first, After(t, b).turn)
    ensures Silent(first, After(t, n).turn)
  {
    if b < n {
      StaysLeft(t, first, b, n - 1);
      AfterNext(t, n - 1);
      LeftNext(t.r, first, After(t, n - 1), t.happenings[n - 1]);
    }
  }

  lemma {:induction false} AgreesAfter(t: Try, a: nat, b: nat, x: nat, n: nat)
    requires Ascending(t.asked) && IsExit(t, a, b, x) && x <= n < |t.happenings|
    ensures Agrees(t.r, FateOf(t, a, b, x), After(t, n))
  {
    if Failure(t, a, b).None? {
      StaysLeft(t, After(t, b).turn, b, x);
      StaysLeft(t, After(t, b).turn, b, n);
      AfterNext(t, n);
    }
  }

  lemma {:induction false} ExitStands(r: Request, s: Node, failure: Option<Reason>, byUser: bool)
    requires s.outer == AcpRun.Awaiting(failure) && Runner(s.rows) == [Scheduled]
    ensures Stands(r, FateFor(r, s.turn, failure, byUser), AcpRun.Next(r, s, Exited), 0)
  {
    assert Taken(Due(r, FateFor(r, s.turn, failure, byUser)), 0) == [];
    assert [Scheduled] + [] == [Scheduled];
  }

  /** Behind the exit at `x` the runner is as far as it went on. */
  predicate Behind(t: Try, fate: Fate, x: nat, n: nat)
    requires x < n <= |t.happenings|
  {
    Stands(t.r, fate, After(t, n), Goes(t.happenings, x + 1, n))
  }

  lemma {:induction false} AtExit(t: Try, a: nat, b: nat, x: nat)
    requires Refusal(t.r).None? && Ascending(t.asked) && IsExit(t, a, b, x)
    ensures Behind(t, FateOf(t, a, b, x), x, x + 1)
  {
    UntilExit(t, a, b, x);
    AfterNext(t, x);
    ExitStands(t.r, After(t, x), Failure(t, a, b), After(t, FirstGo(t.happenings, x + 1)).turn.control.cancel.Some?);
  }

  lemma {:induction false} StandsAfter(t: Try, fate: Fate, n: nat, g: nat)
    requires n < |t.happenings| && Ascending(t.asked)
    requires Stands(t.r, fate, After(t, n), g) && Agrees(t.r, fate, After(t, n))
    requires t.happenings[n].Go? && fate.Stopped? && g == 0 ==>
               fate.byUser == After(t, n).turn.control.cancel.Some?
    ensures Stands(t.r, fate, After(t, n + 1), if t.happenings[n].Go? then g + 1 else g)
  {
    AfterNext(t, n);
    StandsNext(t.r, fate, After(t, n), t.happenings[n], g);
  }

  lemma {:induction false} ByUser(t: Try, a: nat, b: nat, x: nat, n: nat)
    requires IsExit(t, a, b, x) && x < n < |t.happenings| && t.happenings[n].Go?
    requires FateOf(t, a, b, x).Stopped? && Goes(t.happenings, x + 1, n) == 0
    ensures FateOf(t, a, b, x).byUser == After(t, n).turn.control.cancel.Some?
  {
    NoGoBefore(t.happenings, x + 1, n);
  }

  lemma {:induction false} BehindThen(t: Try, a: nat, b: nat, x: nat, n: nat)
    requires Refusal(t.r).None? && Ascending(t.asked) && IsExit(t, a, b, x) && x < n < |t.happenings|
    ensures Behind(t, FateOf(t, a, b, x), x, n + 1)
    decreases n, 1
  {
    var fate, g := FateOf(t, a, b, x), Goes(t.happenings, x + 1, n);
    BehindExit(t, a, b, x, n);
    AgreesAfter(t, a, b, x, n);
    if t.happenings[n].Go? && fate.Stopped? && g == 0 { ByUser(t, a, b, x, n); }
    StandsAfter(t, fate, n, g);
  }

  lemma {:induction false} BehindExit(t: Try, a: nat, b: nat, x: nat, n: nat)
    requires Refusal(t.r).None? && Ascending(t.asked) && IsExit(t, a, b, x) && x < n <= |t.happenings|
    ensures Behind(t, FateOf(t, a, b, x), x, n)
    decreases n, 0
  {
    if n == x + 1 { AtExit(t, a, b, x); } else { BehindThen(t, a, b, x, n - 1); }
  }

  // ---------- The ending ----------

  lemma {:induction false} SomeSpawn(t: Try, n: nat) returns (a: nat)
    requires !NoSpawn(t, n)
    ensures a < n && IsSpawn(t, a)
  {
    if NoSpawn(t, n - 1) { a := n - 1; } else { a := SomeSpawn(t, n - 1); }
  }

  lemma {:induction false} SomeSettling(t: Try, from: nat, n: nat) returns (b: nat)
    requires !NoSettling(t, from, n)
    ensures from <= b < n && Settles(t, b) && NoSettling(t, from, b)
  {
    if NoSettling(t, from, n - 1) { b := n - 1; } else { b := SomeSettling(t, from, n - 1); }
  }

  lemma {:induction false} SomeExit(t: Try, from: nat, n: nat) returns (x: nat)
    requires n <= |t.happenings| && !NoExit(t, from, n)
    ensures from <= x < n && t.happenings[x].Exited? && NoExit(t, from, x)
  {
    if NoExit(t, from, n - 1) { x := n - 1; } else { x := SomeExit(t, from, n - 1); }
  }

  lemma {:induction false} ReturnedWasSpawned(t: Try)
    requires Refusal(t.r).None? && Ascending(t.asked) && Whole(t).outer.Returned?
    ensures !NoSpawn(t, |t.happenings|)
  {
    if NoSpawn(t, |t.happenings|) { BeforeSpawn(t, |t.happenings|); }
  }

  lemma {:induction false} ReturnedWasDecided(t: Try, a: nat)
    requires Refusal(t.r).None? && Ascending(t.asked) && Whole(t).outer.Returned?
    requires IsSpawn(t, a) && t.happenings[a].refused.None?
    ensures !NoSettling(t, a + 1, |t.happenings|)
  {
    if NoSettling(t, a + 1, |t.happenings|) { WhileRacing(t, a, |t.happenings|); }
  }

  lemma {:induction false} ReturnedHasLeft(t: Try, a: nat, b: nat)
    requires Refusal(t.r).None? && Ascending(t.asked) && Whole(t).outer.Returned? && IsOver(t, a, b)
    ensures !NoExit(t, b + 1, |t.happenings|)
  {
    if NoExit(t, b + 1, |t.happenings|) { UntilExit(t, a, b, |t.happenings|); }
  }

  /** An attempt that has returned was spawned, was decided, and its child has left. */
  lemma {:induction false} ReturnedHasExit(t: Try) returns (a: nat, b: nat, x: nat)
    requires Refusal(t.r).None? && Ascending(t.asked) && Whole(t).outer.Returned?
    ensures IsExit(t, a, b, x)
  {
    ReturnedWasSpawned(t);
    a := SomeSpawn(t, |t.happenings|);
    b := a;
    if t.happenings[a].refused.None? {
      ReturnedWasDecided(t, a);
      b := SomeSettling(t, a + 1, |t.happenings|);
    }
    ReturnedHasLeft(t, a, b);
    x := SomeExit(t, b + 1, |t.happenings|);
  }

  /** The attempt has come to its end: the runner has gone on behind the exit as often as it takes. */
  predicate ComesToEnd(t: Try, a: nat, b: nat, x: nat) {
    IsExit(t, a, b, x) && Goes(t.happenings, x + 1, |t.happenings|) >= |Due(t.r, FateOf(t, a, b, x))|
  }

  /** An attempt that nothing refuses returns exactly where it was spawned, the race was decided, the child left
      and the runner went on; what the runner has written then is its schedule and what its fate calls for. */
  lemma {:induction false} AttemptEnds(t: Try)
    requires Refusal(t.r).None? && Ascending(t.asked)
    ensures Whole(t).outer.Returned? <==> exists a: nat, b: nat, x: nat :: ComesToEnd(t, a, b, x)
    ensures forall a: nat, b: nat, x: nat | ComesToEnd(t, a, b, x) ::
              Runner(Whole(t).rows) == [Scheduled] + Rows(Due(t.r, FateOf(t, a, b, x)))
  {
    if Whole(t).outer.Returned? {
      var a, b, x := ReturnedHasExit(t);
      BehindExit(t, a, b, x, |t.happenings|);
      assert ComesToEnd(t, a, b, x);
    }
    forall a: nat, b: nat, x: nat | ComesToEnd(t, a, b, x)
      ensures Whole(t).outer.Returned?
      ensures Runner(Whole(t).rows) == [Scheduled] + Rows(Due(t.r, FateOf(t, a, b, x)))
    {
      BehindExit(t, a, b, x, |t.happenings|);
    }
  }

  /** The terminal row, exactly: a completion where the spawn and the race did not fail, the last turn did not stop
      cancelled and no work product is missing; a cancellation where that turn did stop cancelled; and otherwise
      the failure that occurred, which is a time-out where a cancel had escalated. */
  lemma {:induction false} EndsExactly(t: Try, a: nat, b: nat, x: nat)
    requires Refusal(t.r).None? && Ascending(t.asked) && ComesToEnd(t, a, b, x)
    ensures Whole(t).outer.Returned? && Whole(t).outer.row < |Whole(t).rows|
    ensures var row, turn := Whole(t).rows[Whole(t).outer.row], After(t, x).turn;
            var failure, missing := Failure(t, a, b), WorkProductRefusal(t.r.subject);
            && (row.Completed? <==> failure.None? && !LastCancelled(turn) && missing.None?)
            && (row.CancelNoted? <==> failure.None? && LastCancelled(turn))
            && (forall q :: row == Failed(q) <==>
                  if failure.Some? then q == if turn.control.escalated then "agent-timed-out" else failure.value
                  else !LastCancelled(turn) && missing == Some(q))
  {
    BehindExit(t, a, b, x, |t.happenings|);
  }
}
