/** An ACP attempt as the ledger sees it (run-node.ts). */
module AcpRun {
  import opened Options
  import opened Lines
  import opened Ledger
  import opened AcpTurn
  import opened ScopeAudit
  import FrameGuard

  // What is refused before a process exists, the race between the connection program and its
  // failures, and the five ways an attempt ends. The program may outlive a race it lost.

  /** What is run, and what other modules answer about it. */
  datatype Request = Request(
    setup: Setup,
    pinsMissing: bool, frameLimit: FrameGuard.Limit, recording: Option<Reason>, undeclarable: Option<Reason>,
    subject: Subject, admission: Option<Reason>,
    limitOf: Reason -> Option<Option<nat>>,  // whether a failure is a declared rate limit, and its reset
    wakes: bool,
    textOf: string -> string,                // the agent's text in an update
    prompt: string, continuation: string,    // what the first work turn sends, and every later one
    pinned: string,                          // the pinned segments, joined
    guidance: nat -> string)                 // the text of a correction

  const PINS_VIOLATED: Reason := "safety.pin-integrity-violated"
  const UNSCHEDULABLE: Reason := "safety.permission-unschedulable"

  datatype Pre = Scheduling | Deciding | MarkingPins | MarkingUnschedulable | Refusing | Spawning

  datatype Post =
    | Limiting(reason: Reason, resetsAt: Option<nat>)
    | Waking(reason: Reason, at: nat)
    | Failing(reason: Reason)
    | CancelNoting
    | Auditing
    | Warned

  datatype Outer =
    | Early(pre: Pre)
    | Racing
    | Awaiting(caught: Option<Reason>)  // the child's exit: of a race that failed, or that was won
    | Late(post: Post)
    | Returned(row: nat)                // the index of the terminal row

  datatype Node = Node(outer: Outer, spawned: bool, turn: Turn, rows: seq<Row>)

  datatype Happening =
    | Program(event: Event)             // something happens to the connection program
    | Go                                // the runner's own next append or decision
    | Spawned(refused: Option<Reason>)
    | RaceFails(reason: Reason)         // the transport, or an advertised method with no handler
    | RaceSettles                       // with what the program returned or threw
    | Exited

  function Refusal(r: Request): Option<Reason> {
    FirstOf(if r.pinsMissing then Some(PINS_VIOLATED) else None,
    FirstOf(FrameGuard.LimitRefusal(r.frameLimit),
    FirstOf(r.recording, FirstOf(r.undeclarable, FirstOf(Unwired(r.subject), r.admission)))))
  }

  function Begin(asked: seq<nat>, receipted: set<nat>): Node {
    Node(Early(Scheduling), false, Start(asked, receipted), [])
  }

  // ---------- Steps ----------

  function Write(s: Node, row: Row, next: Outer): Node { s.(rows := s.rows + [row], outer := next) }

  /** The closing batch: the terminal row is the last one written. */
  function Close(s: Node, batch: Batch): Node
    requires batch != []
  {
    s.(rows := s.rows + batch, outer := Returned(|s.rows| + |batch| - 1))
  }

  function GoEarly(r: Request, s: Node, pre: Pre): Node {
    match pre
    case Scheduling => Write(s, Scheduled, Early(Deciding))
    case Deciding =>
      if Refusal(r).None? then s.(outer := Early(Spawning))
      else if r.pinsMissing then s.(outer := Early(MarkingPins))
      else if Refusal(r).value == UNSCHEDULABLE then s.(outer := Early(MarkingUnschedulable))
      else s.(outer := Early(Refusing))
    case MarkingPins => Write(s, PinViolated, Early(Refusing))
    case MarkingUnschedulable => Write(s, Unschedulable, Early(Refusing))
    case Refusing => if Refusal(r).None? then s else Close(s, [Failed(Refusal(r).value)])
    case Spawning => s
  }

  function AgentText(textOf: string -> string, updates: seq<string>): string {
    if updates == [] then "" else AgentText(textOf, Init(updates)) + textOf(Last(updates))
  }

  function Spoken(r: Request, s: Node): string
    requires s.turn.pipe.pulled <= |s.turn.pipe.read|
  {
    AgentText(r.textOf, Updates(s.turn.pipe.read, s.turn.pipe.pulled))
  }

  /** The text of the prompt sent behind `n` others. */
  function SentText(r: Request, p: Prompt, n: nat): string {
    match p
    case Work => if n == 0 then r.prompt else r.continuation
    case Pins => r.pinned
    case Correction(q) => r.guidance(q)
  }

  /** All that was sent, a blank line between one prompt and the next. */
  function PromptText(r: Request, prompts: seq<Prompt>): string {
    if prompts == [] then ""
    else
      var before, text := PromptText(r, Init(prompts)), SentText(r, Last(prompts), |prompts| - 1);
      if before == "" then text else before + "\n\n" + text
  }

  /** `estimateUsage`: four characters to a token. */
  function Estimate(prompts: string, text: string): Spend { Estimated((|prompts| + 3) / 4, (|text| + 3) / 4) }

  function ClosingOf(r: Request, prompts: string, text: string): Batch {
    var spend := BudgetConsumed(Estimate(prompts, text));
    if WorkProductRefusal(r.subject).Some? then [spend, Failed(WorkProductRefusal(r.subject).value)]
    else [spend, Completed(text, (|text| + 3) / 4)]
  }

  function GoLate(r: Request, s: Node, post: Post): Node {
    match post
    case Limiting(reason, resetsAt) =>
      Write(s, RateLimited(resetsAt, reason),
            Late(if resetsAt.Some? && r.wakes then Waking(reason, resetsAt.value) else Failing(reason)))
    case Waking(reason, at) => Write(s, Wake(at), Late(Failing(reason)))
    case Failing(reason) => Close(s, [Failed(reason)])
    case CancelNoting => Close(s, [CancelNoted(s.turn.control.cancel.Some?)])
    case Auditing =>
      if Warnings(r.subject) == [] then s.(outer := Late(Warned)) else Write(s, ScopeWarning, Late(Warned))
    case Warned =>
      if s.turn.pipe.pulled <= |s.turn.pipe.read|
      then Close(s, ClosingOf(r, PromptText(r, s.turn.talk.prompts), Spoken(r, s)))
      else s
  }

  /** The catch: an escalated cancel is a timeout and nothing else; only then is a limit looked for. */
  function Classify(r: Request, s: Node, caught: Reason): Post {
    if s.turn.control.escalated then Failing("agent-timed-out")
    else if r.limitOf(caught).Some? then Limiting(caught, r.limitOf(caught).value)
    else Failing(caught)
  }

  function Disarm(t: Turn): Turn { t.(control := t.control.(armed := false)) }

  function Catch(s: Node, reason: Reason): Node {
    s.(outer := Awaiting(Some(reason)), turn := Disarm(s.turn))
  }

  /** The program's own step, in the interleaving: what it appends goes to the same ledger. */
  function Drive(r: Request, s: Node, e: Event): Node {
    var t := AcpTurn.Next(r.setup, s.turn, e);
    s.(turn := t, rows := s.rows + if |t.filed| > |s.turn.filed| then t.filed[|s.turn.filed|..] else [])
  }

  predicate Ended(at: At) { at.Left? || at.Threw? }

  function Next(r: Request, s: Node, h: Happening): Node {
    match h
    case Program(e) => if s.spawned || e.Interject? then Drive(r, s, e) else s
    case Go =>
      if s.outer.Early? then GoEarly(r, s, s.outer.pre)
      else if s.outer.Late? then GoLate(r, s, s.outer.post)
      else s
    case Spawned(refused) =>
      if s.outer != Early(Spawning) then s
      else if refused.Some? then Catch(s, refused.value)
      else s.(outer := Racing, spawned := true)
    case RaceFails(reason) => if s.outer.Racing? then Catch(s, reason) else s
    case RaceSettles =>
      if !s.outer.Racing? || !Ended(s.turn.at) then s
      else if s.turn.at.Threw? then Catch(s, s.turn.at.reason)
      else s.(outer := Awaiting(None))
    case Exited =>
      if !s.outer.Awaiting? then s
      else if s.outer.caught.Some? then s.(outer := Late(Classify(r, s, s.outer.caught.value)))
      else if s.turn.talk.stops != [] && Last(s.turn.talk.stops).Cancelled? then s.(outer := Late(CancelNoting))
      else s.(outer := Late(Auditing))
  }

  function Run(r: Request, s: Node, happenings: seq<Happening>): Node {
    if happenings == [] then s else Next(r, Run(r, s, Init(happenings)), Last(happenings))
  }

  // ---------- One terminal record ----------

  predicate Open(outer: Outer, rows: seq<Row>) {
    if outer.Returned? then Closed(rows, outer.row) else AllQuiet(rows)
  }

  lemma {:induction false} CloseCloses(s: Node, batch: Batch)
    requires AllQuiet(s.rows) && Closing(batch)
    ensures Open(Close(s, batch).outer, Close(s, batch).rows)
  {
    ClosingCloses(s.rows, batch, []);
    assert s.rows + batch + [] == s.rows + batch;
  }

  lemma {:induction false} GoOpen(r: Request, s: Node)
    requires Open(s.outer, s.rows)
    ensures Open(Next(r, s, Go).outer, Next(r, s, Go).rows)
  {
    if s.outer.Early? && s.outer.pre.Refusing? && Refusal(r).Some? { CloseCloses(s, [Failed(Refusal(r).value)]); }
    if s.outer.Late? {
      match s.outer.post
      case Failing(reason) => CloseCloses(s, [Failed(reason)]);
      case CancelNoting => CloseCloses(s, [CancelNoted(s.turn.control.cancel.Some?)]);
      case Warned =>
        if s.turn.pipe.pulled <= |s.turn.pipe.read| {
          CloseCloses(s, ClosingOf(r, PromptText(r, s.turn.talk.prompts), Spoken(r, s)));
        }
      case _ =>
    }
  }

  /** What the program appends, if anything, is one row of its own. */
  lemma {:induction false} DriveAppends(r: Request, s: Node, e: Event)
    requires Plain(r.setup, s.turn)
    ensures var t := AcpTurn.Next(r.setup, s.turn, e);
            || (t.filed == s.turn.filed && Drive(r, s, e).rows == s.rows)
            || (exists row ::
                  t.filed == s.turn.filed + [row] && Drive(r, s, e).rows == s.rows + [row] && OwnRow(r.setup, row))
  {
    var t := AcpTurn.Next(r.setup, s.turn, e);
    NextPlain(r.setup, s.turn, e);
    if t.filed != s.turn.filed {
      assert t.filed == s.turn.filed + [Last(t.filed)];
      assert OwnRow(r.setup, Last(t.filed));
      assert t.filed[|s.turn.filed|..] == [Last(t.filed)];
    }
  }

  lemma {:induction false} DriveOpen(r: Request, s: Node, e: Event)
    requires Open(s.outer, s.rows) && Plain(r.setup, s.turn)
    ensures Open(s.outer, Drive(r, s, e).rows)
  {
    DriveAppends(r, s, e);
  }

  lemma {:induction false} NextOpen(r: Request, s: Node, h: Happening)
    requires Open(s.outer, s.rows) && Plain(r.setup, s.turn)
    ensures Open(Next(r, s, h).outer, Next(r, s, h).rows)
  {
    match h
    case Program(e) => DriveOpen(r, s, e);
    case Go => GoOpen(r, s);
    case _ =>
  }

  // ---------- The program in the ledger ----------

  /** The ledger holds the program's chunks and notes, in order, and no others; its start records
      name the binary asked for. */
  predicate Tied(r: Request, turn: Turn, rows: seq<Row>) {
    && Chunks(rows) == Chunks(turn.filed) && Notes(rows) == Notes(turn.filed)
    && forall k | 0 <= k < |rows| && rows[k].Started? :: rows[k].binary == r.setup.binary
  }

  predicate Outside(row: Row) { !row.Chunk? && !row.UpdateFiled? && !row.Started? }

  lemma {:induction false} TiedOutside(r: Request, turn: Turn, rows: seq<Row>, row: Row)
    requires Tied(r, turn, rows) && Outside(row)
    ensures Tied(r, turn, rows + [row])
  {
    RowsPushed(rows, row);
  }

  lemma {:induction false} TiedClose(r: Request, s: Node, batch: Batch)
    requires Tied(r, s.turn, s.rows) && Closing(batch)
    ensures Tied(r, s.turn, Close(s, batch).rows)
  {
    TiedOutside(r, s.turn, s.rows, batch[0]);
    if |batch| == 2 {
      TiedOutside(r, s.turn, s.rows + [batch[0]], batch[1]);
      assert s.rows + [batch[0]] + [batch[1]] == s.rows + batch;
    } else {
      assert s.rows + [batch[0]] == s.rows + batch;
    }
  }

  lemma {:induction false} GoTied(r: Request, s: Node)
    requires Tied(r, s.turn, s.rows)
    ensures Tied(r, Next(r, s, Go).turn, Next(r, s, Go).rows)
  {
    if s.outer.Early? {
      match s.outer.pre
      case Scheduling => TiedOutside(r, s.turn, s.rows, Scheduled);
      case MarkingPins => TiedOutside(r, s.turn, s.rows, PinViolated);
      case MarkingUnschedulable => TiedOutside(r, s.turn, s.rows, Unschedulable);
      case Refusing => if Refusal(r).Some? { TiedClose(r, s, [Failed(Refusal(r).value)]); }
      case _ =>
    } else if s.outer.Late? {
      LateTied(r, s, s.outer.post);
    }
  }

  lemma {:induction false} LateTied(r: Request, s: Node, post: Post)
    requires Tied(r, s.turn, s.rows)
    ensures Tied(r, s.turn, GoLate(r, s, post).rows) && GoLate(r, s, post).turn == s.turn
  {
    match post
    case Limiting(reason, resetsAt) => TiedOutside(r, s.turn, s.rows, RateLimited(resetsAt, reason));
    case Waking(reason, at) => TiedOutside(r, s.turn, s.rows, Wake(at));
    case Failing(reason) => TiedClose(r, s, [Failed(reason)]);
    case CancelNoting => TiedClose(r, s, [CancelNoted(s.turn.control.cancel.Some?)]);
    case Auditing => TiedOutside(r, s.turn, s.rows, ScopeWarning);
    case Warned =>
      if s.turn.pipe.pulled <= |s.turn.pipe.read| {
        TiedClose(r, s, ClosingOf(r, PromptText(r, s.turn.talk.prompts), Spoken(r, s)));
      }
  }

  lemma {:induction false} DriveTied(r: Request, s: Node, e: Event)
    requires Tied(r, s.turn, s.rows) && Plain(r.setup, s.turn)
    ensures Tied(r, Drive(r, s, e).turn, Drive(r, s, e).rows)
  {
    DriveAppends(r, s, e);
    var t := AcpTurn.Next(r.setup, s.turn, e);
    if t.filed != s.turn.filed {
      var row :| t.filed == s.turn.filed + [row] && Drive(r, s, e).rows == s.rows + [row] && OwnRow(r.setup, row);
      RowsPushed(s.rows, row);
      RowsPushed(s.turn.filed, row);
    }
  }

  lemma {:induction false} NextTied(r: Request, s: Node, h: Happening)
    requires Tied(r, s.turn, s.rows) && Plain(r.setup, s.turn)
    ensures Tied(r, Next(r, s, h).turn, Next(r, s, h).rows)
  {
    match h
    case Program(e) => DriveTied(r, s, e);
    case Go => GoTied(r, s);
    case _ =>
  }

  lemma {:induction false} NextTurnIsSafe(r: Request, s: Node, h: Happening, receipted: set<nat>)
    requires Safe(r.setup, receipted, s.turn)
    ensures Safe(r.setup, receipted, Next(r, s, h).turn)
  {
    if h.Program? { NextIsSafe(r.setup, s.turn, h.event, receipted); }
  }

  // ---------- What the ending says ----------

  predicate StoppedBy(t: Turn, cancelled: bool) {
    t.at.Left? && t.talk.stops != [] && Last(t.talk.stops).Cancelled? == cancelled
  }

  /** The race was won by a program that returned. */
  predicate Won(outer: Outer, t: Turn) {
    && (outer == Awaiting(None) ==> t.at.Left?)
    && (outer.Late? && outer.post.CancelNoting? ==> StoppedBy(t, true))
    && (outer.Late? && (outer.post.Auditing? || outer.post.Warned?) ==> StoppedBy(t, false))
  }

  /** A completion, and a cancellation, say what the last turn of the program said. */
  predicate Truthful(r: Request, s: Node) {
    s.outer.Returned? && s.outer.row < |s.rows| ==>
      var last := s.rows[s.outer.row];
      && (last.CancelNoted? ==> StoppedBy(s.turn, true))
      && (last.Completed? ==>
            && StoppedBy(s.turn, false) && last.output == AgentText(r.textOf, Chunks(s.turn.filed))
            && s.outer.row > 0 && s.rows[s.outer.row - 1] == SpendOf(r, s, last.output)
            && WorkProductRefusal(r.subject).None?)
  }

  /** The spend of an attempt: an estimate of all it sent and all it was told. */
  function SpendOf(r: Request, s: Node, output: string): Row {
    BudgetConsumed(Estimate(PromptText(r, s.turn.talk.prompts), output))
  }

  lemma {:induction false} NextWon(r: Request, s: Node, h: Happening)
    requires Won(s.outer, s.turn) && Paired(s.turn.at, s.turn.talk)
    ensures Won(Next(r, s, h).outer, Next(r, s, h).turn)
  {
  }

  lemma {:induction false} CloseTruthful(r: Request, s: Node)
    requires Won(s.outer, s.turn) && TurnDurable(s.turn) && s.outer.Late?
    ensures Truthful(r, GoLate(r, s, s.outer.post))
  {
    if s.outer.post.Warned? { assert s.turn.at.Left?; }
  }

  lemma {:induction false} DriveTruthful(r: Request, s: Node, e: Event)
    requires Truthful(r, s) && s.outer.Returned? && s.outer.row < |s.rows|
    ensures Truthful(r, Drive(r, s, e))
  {
    if s.rows[s.outer.row].CancelNoted? || s.rows[s.outer.row].Completed? {
      assert s.turn.at.Left?;
      var t := AcpTurn.Next(r.setup, s.turn, e);
      assert t.at == s.turn.at && t.talk == s.turn.talk && t.filed == s.turn.filed;
    }
  }

  lemma {:induction false} NextTruthful(r: Request, s: Node, h: Happening)
    requires Truthful(r, s) && Won(s.outer, s.turn) && TurnDurable(s.turn) && Open(s.outer, s.rows)
    ensures Truthful(r, Next(r, s, h))
  {
    if s.outer.Returned? {
      if h.Program? { DriveTruthful(r, s, h.event); }
    } else if h.Go? && s.outer.Late? {
      CloseTruthful(r, s);
    }
  }

  /** A refused attempt never leaves the decisions made before the spawn. */
  predicate Unspawned(r: Request, s: Node) {
    Refusal(r).Some? ==>
      && !s.spawned && ((s.outer.Early? && !s.outer.pre.Spawning?) || s.outer.Returned?)
      && (s.outer.Returned? ==> s.outer.row < |s.rows| && s.rows[s.outer.row] == Failed(Refusal(r).value))
      && (forall k | 0 <= k < |s.rows| :: !s.rows[k].Started?)
  }

  lemma {:induction false} NextUnspawned(r: Request, s: Node, h: Happening)
    requires Unspawned(r, s) && Refused(r, s.outer)
    ensures Unspawned(r, Next(r, s, h))
  {
    if Refusal(r).Some? && h.Program? && h.event.Interject? {
      assert Drive(r, s, h.event).rows == s.rows + [];
    }
  }

  predicate Refused(r: Request, outer: Outer) {
    (outer.Early? && (outer.pre.Refusing? || outer.pre.MarkingPins? || outer.pre.MarkingUnschedulable?)) ==>
      Refusal(r).Some?
  }

  lemma {:induction false} NextRefused(r: Request, s: Node, h: Happening)
    requires Refused(r, s.outer)
    ensures Refused(r, Next(r, s, h).outer)
  {
  }

  // ---------- Every run ----------

  predicate Sound(r: Request, receipted: set<nat>, s: Node) {
    && Safe(r.setup, receipted, s.turn) && Tied(r, s.turn, s.rows) && Open(s.outer, s.rows)
    && Won(s.outer, s.turn) && Truthful(r, s) && Unspawned(r, s)
    && Refused(r, s.outer)
  }

  lemma {:induction false} NextIsSound(r: Request, s: Node, h: Happening, receipted: set<nat>)
    requires Sound(r, receipted, s)
    ensures Sound(r, receipted, Next(r, s, h))
  {
    NextTurnIsSafe(r, s, h, receipted);
    NextTied(r, s, h);
    NextOpen(r, s, h);
    NextWon(r, s, h);
    NextTruthful(r, s, h);
    NextUnspawned(r, s, h);
    NextRefused(r, s, h);
  }

  lemma {:induction false} RunIsSound(r: Request, asked: seq<nat>, receipted: set<nat>, happenings: seq<Happening>)
    requires Ascending(asked)
    ensures Sound(r, receipted, Run(r, Begin(asked, receipted), happenings))
  {
    if happenings == [] {
      StartIsSafe(r.setup, asked, receipted);
    } else {
      RunIsSound(r, asked, receipted, Init(happenings));
      NextIsSound(r, Run(r, Begin(asked, receipted), Init(happenings)), Last(happenings), receipted);
    }
  }

  /** However the attempt goes: until it returns there is no terminal record and no spend; once it
      has returned there is exactly one terminal record, any spend stands immediately before it, and
      no scope warning comes after it, although an orphaned program may still be filing updates. */
  lemma {:induction false} OneTerminalRecord(r: Request, asked: seq<nat>, receipted: set<nat>,
        happenings: seq<Happening>)
    requires Ascending(asked)
    ensures var s := Run(r, Begin(asked, receipted), happenings);
            if s.outer.Returned? then Closed(s.rows, s.outer.row) else AllQuiet(s.rows)
  {
    RunIsSound(r, asked, receipted, happenings);
  }

  /** In the ledger as a whole: while the next update is awaited, the chunks and the notes are the
      updates pulled so far, in order. */
  lemma {:induction false} LedgerHoldsPulled(r: Request, asked: seq<nat>, receipted: set<nat>,
        happenings: seq<Happening>)
    requires Ascending(asked)
    ensures var s := Run(r, Begin(asked, receipted), happenings);
            && s.turn.pipe.pulled <= |s.turn.pipe.read|
            && (s.turn.at.Pulling? ==>
                  s.turn.pipe.gateOpen && Chunks(s.rows) == Notes(s.rows)
                      == Updates(s.turn.pipe.read, s.turn.pipe.pulled))
  {
    RunIsSound(r, asked, receipted, happenings);
  }

  /** A completed attempt says exactly what its chunks say, and books an estimate over every prompt it sent;
      its last turn stopped without being cancelled, and a cancellation is noted only where it was. */
  lemma {:induction false} CompletionIsTruthful(r: Request, asked: seq<nat>, receipted: set<nat>,
        happenings: seq<Happening>)
    requires Ascending(asked)
    ensures var s := Run(r, Begin(asked, receipted), happenings);
            s.outer.Returned? ==>
              && s.outer.row < |s.rows|
              && (s.rows[s.outer.row].Completed? ==>
                    && s.rows[s.outer.row].output == AgentText(r.textOf, Chunks(s.rows)) && StoppedBy(s.turn, false)
                    && s.outer.row > 0 && s.rows[s.outer.row - 1] == SpendOf(r, s, s.rows[s.outer.row].output))
              && (s.rows[s.outer.row].CancelNoted? ==> StoppedBy(s.turn, true))
  {
    RunIsSound(r, asked, receipted, happenings);
  }

  /** A refused attempt spawns nothing: no child, no start record, and the terminal record is the
      refusal. */
  lemma {:induction false} RefusedSpawnsNothing(r: Request, asked: seq<nat>, receipted: set<nat>,
        happenings: seq<Happening>)
    requires Ascending(asked) && Refusal(r).Some?
    ensures var s := Run(r, Begin(asked, receipted), happenings);
            && !s.spawned && (forall k | 0 <= k < |s.rows| :: !s.rows[k].Started?)
            && (s.outer.Returned? ==> s.outer.row < |s.rows| && s.rows[s.outer.row] == Failed(Refusal(r).value))
  {
    RunIsSound(r, asked, receipted, happenings);
  }

  /** The orphan is real: from every state in which the race is lost while an update is being filed,
      the terminal record can be written first and the update's row behind it. */
  lemma {:induction false} OrphanFilesBehindTheTerminal(r: Request, s: Node, reason: Reason)
    requires s.outer.Racing? && s.spawned && s.turn.at.Filing? && !s.turn.at.chunked
    requires !s.turn.control.escalated && r.limitOf(reason).None?
    ensures var caught := Next(r, Next(r, s, RaceFails(reason)), Exited);
            var after := Next(r, Next(r, caught, Go), Program(Step));
            after.outer == Returned(|s.rows|) && after.rows == s.rows + [Failed(reason), Chunk(s.turn.at.update)]
  {
    var failed := Next(r, Next(r, Next(r, s, RaceFails(reason)), Exited), Go);
    assert failed.rows == s.rows + [Failed(reason)] && failed.turn == Disarm(s.turn);
    var t := AcpTurn.Next(r.setup, failed.turn, Step);
    assert t.filed == failed.turn.filed + [Chunk(s.turn.at.update)];
    assert t.filed[|failed.turn.filed|..] == [Chunk(s.turn.at.update)];
  }
}
