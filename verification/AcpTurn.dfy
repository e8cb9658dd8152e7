/** The connection program of an ACP attempt (run-node.ts). */
module AcpTurn {
  import opened Options
  import opened Lines
  import opened Ledger

  // Handshake, session, the turn loop and the pull loop inside it, which `connectWith` drives, as a
  // machine whose every step may be the last one before a crash.

  datatype Prompt = Work | Pins | Correction(interjection: nat)

  datatype Stop = EndTurn | MaxTurnRequests | Cancelled | OtherStop

  datatype Message = Update(update: string) | Ended(stop: Stop)

  datatype Frame = Initialize | NewSession | ResumeSession(id: string) | CancelSession

  /** What an attempt is asked to run. */
  datatype Setup = Setup(
    binary: Binary, resume: Option<string>,
    budget: Option<int>,        // the most work turns, where the node has a turn budget
    everyTurns: Option<int>,    // the re-injection interval, where one is configured
    pins: bool,                 // there are pinned segments
    steerable: bool,            // the probed row grants mid-session steering
    review: Option<Reason>,     // why the review would not be independent
    escalates: bool)            // an unanswered cancel may climb to signals

  /** Before the first prompt: what is about to be sent or appended, or is awaited. */
  datatype Stage =
    | Connecting
    | Handshake
    | Recording
    | Opening
    | Asked
    | Journaling(id: string)
    | Announcing(id: string)
    | Reviewing

  /** Between two turns: about to record that the pins go out again, about to ask which corrections
      are pending, or at the head of the loop over them. */
  datatype Place = Reinjecting | Collecting | Delivering

  /** Where the program stands: at an append or a send it is about to make, or waiting. */
  datatype At =
    | Before(stage: Stage)
    | Sending(prompt: Prompt)
    | Pulling(prompt: Prompt)
    | Filing(prompt: Prompt, update: string, chunked: bool)
    | Resting(prompt: Prompt)   // the turn has stopped
    | Between(place: Place)
    | Left
    | Threw(reason: Reason)

  /** What held when the operator cancelled: how many prompts were out, and whether the round under
      way still had its work prompt to come. */
  datatype Mark = Mark(sent: nat, owesWork: bool)

  /** The prompts sent, the stops of their turns, and the counters of the turn loop. */
  datatype Talk = Talk(prompts: seq<Prompt>, stops: seq<Stop>, turnsRun: nat, counter: Option<int>)

  /** What was read off the child, how much of it was pulled, and the transport's gate. */
  datatype Pipe = Pipe(read: seq<Message>, pulled: nat, gateOpen: bool)

  /** The interjections in the ledger by their seq, those it holds a receipt for, and what is left
      of the list being delivered. */
  datatype Guidance = Guidance(asked: seq<nat>, receipted: set<nat>, todo: seq<nat>)

  datatype Control = Control(cancel: Option<Mark>, armed: bool, escalated: bool)

  /** `frames` are those sent other than prompts, `filed` the rows this program appended. */
  datatype Turn = Turn(
    at: At, frames: seq<Frame>, filed: seq<Row>, talk: Talk, pipe: Pipe, guidance: Guidance, control: Control)

  datatype Event =
    | Step                      // the program's own next append, send or decision
    | Answered(versionMatches: bool)
    | SessionGiven(id: string)
    | Broken(reason: Reason)    // what is awaited fails: a rejection, the child's exit, the transport
    | Deliver(message: Message) // the agent's next message is read off the child
    | Take                      // the pull is answered
    | Abort
    | Timer
    | Interject(seqNo: nat)

  /** A life starts with the interjections and the receipts the ledger holds. */
  function Start(asked: seq<nat>, receipted: set<nat>): Turn {
    Turn(Before(Connecting), [], [], Talk([], [], 0, None), Pipe([], 0, true),
         Guidance(asked, receipted, []), Control(None, false, false))
  }

  // ---------- Steps ----------

  /** `pendingInterjections`: asked for and without a receipt, oldest first. */
  function Pending(asked: seq<nat>, receipted: set<nat>): seq<nat> {
    if asked == [] then []
    else Pending(Init(asked), receipted) + if Last(asked) in receipted then [] else [Last(asked)]
  }

  predicate InTurn(at: At) { at.Pulling? || at.Filing? }

  /** The round under way still has its work prompt to come. */
  predicate OwesWork(at: At) {
    !(InTurn(at) && at.prompt.Work?) && !(at.Resting? && at.prompt.Work?) && !at.Left? && !at.Threw?
  }

  /** Core's `afterTurn`: the counter restarts on the turn the interval comes due. */
  function AfterTurn(every: int, since: int): (int, bool) {
    if since + 1 < every then (since + 1, false) else (0, true)
  }

  /** The counter after a work turn, and whether the interval came due. */
  function Tick(c: Setup, counter: Option<int>): (Option<int>, bool) {
    if counter.None? || c.everyTurns.None? then (counter, false)
    else var (since, due) := AfterTurn(c.everyTurns.value, counter.value); (Some(since), due)
  }

  /** After a work turn: count it, tick the counter, and loop or leave. */
  function Decide(c: Setup, t: Turn): Turn
    requires t.talk.stops != []
  {
    var ran, tick := t.talk.turnsRun + 1, Tick(c, t.talk.counter);
    var goesOn := && c.budget.Some? && ran < c.budget.value
                  && Last(t.talk.stops).MaxTurnRequests? && t.control.cancel.None?;
    t.(talk := t.talk.(turnsRun := ran, counter := tick.0),
       at := if !goesOn then Left else Between(if tick.1 then Reinjecting else Collecting))
  }

  function Append(t: Turn, row: Row, next: At): Turn { t.(filed := t.filed + [row], at := next) }

  function Starting(c: Setup, t: Turn): Turn {
    if c.review.Some? then t.(at := Threw(c.review.value))
    else t.(at := Sending(Work),
            talk := t.talk.(counter := if c.everyTurns.Some? && c.pins && c.steerable then Some(0) else None))
  }

  /** Up to the first prompt: the handshake, and each record before what it records. */
  function StepOpening(c: Setup, t: Turn, stage: Stage): Turn {
    match stage
    case Connecting => t.(frames := t.frames + [Initialize], at := Before(Handshake))
    case Recording => Append(t, Started(c.binary, None), Before(Opening))
    case Opening =>
      t.(frames := t.frames + [if c.resume.None? then NewSession else ResumeSession(c.resume.value)],
         at := Before(Asked))
    case Journaling(id) => Append(t, Started(c.binary, Some(id)), Before(Announcing(id)))
    case Announcing(id) => Append(t, SessionOpened(id), Before(Reviewing))
    case Reviewing => Starting(c, t)
    case Handshake => t
    case Asked => t
  }

  function Send(t: Turn, p: Prompt): Turn {
    t.(talk := t.talk.(prompts := t.talk.prompts + [p]), at := Pulling(p))
  }

  /** An update's two rows; the gate opens behind the second. */
  function StepFiling(t: Turn, p: Prompt, u: string, chunked: bool): Turn {
    if !chunked then Append(t, Chunk(u), Filing(p, u, true))
    else t.(filed := t.filed + [UpdateFiled(u)], at := Pulling(p), pipe := t.pipe.(gateOpen := true))
  }

  /** Between turns: the pins where they are due, then each pending correction, then more work. */
  function StepBetween(c: Setup, t: Turn, place: Place): Turn {
    match place
    case Reinjecting => Append(t, PinsReinjected(t.talk.turnsRun), Sending(Pins))
    case Collecting =>
      var pending := if c.steerable then Pending(t.guidance.asked, t.guidance.receipted) else [];
      t.(guidance := t.guidance.(todo := pending), at := Between(Delivering))
    case Delivering =>
      if t.guidance.todo == [] then t.(at := Sending(Work))
      else t.(guidance := t.guidance.(todo := t.guidance.todo[1..]), at := Sending(Correction(t.guidance.todo[0])))
  }

  /** A correction's receipt is filed behind its turn. */
  function Rest(c: Setup, t: Turn, p: Prompt): Turn {
    match p
    case Work => if t.talk.stops == [] then t else Decide(c, t)
    case Pins => t.(at := Between(Collecting))
    case Correction(q) =>
      t.(filed := t.filed + [Delivered(q)], at := Between(Delivering),
         guidance := t.guidance.(receipted := t.guidance.receipted + {q}))
  }

  function StepOn(c: Setup, t: Turn): Turn {
    match t.at
    case Before(stage) => StepOpening(c, t, stage)
    case Sending(p) => Send(t, p)
    case Filing(p, u, chunked) => StepFiling(t, p, u, chunked)
    case Resting(p) => Rest(c, t, p)
    case Between(place) => StepBetween(c, t, place)
    case Pulling(_) => t
    case Left => t
    case Threw(_) => t
  }

  predicate Ready(t: Turn) { t.at.Pulling? && t.pipe.pulled < |t.pipe.read| }

  /** The first message not yet pulled: a stop ends the prompt's turn, an update closes the gate. */
  function Pull(t: Turn): Turn
    requires Ready(t)
  {
    var p, n := t.at.prompt, t.pipe.pulled;
    match t.pipe.read[n]
    case Ended(stop) =>
      t.(at := Resting(p), talk := t.talk.(stops := t.talk.stops + [stop]), pipe := t.pipe.(pulled := n + 1),
         control := t.control.(armed := false))
    case Update(u) => t.(at := Filing(p, u, false), pipe := Pipe(t.pipe.read, n + 1, false))
  }

  function Cancel(c: Setup, t: Turn): Turn {
    var mark := Mark(|t.talk.prompts|, OwesWork(t.at));
    t.(frames := t.frames + [CancelSession], control := Control(Some(mark), c.escalates, t.control.escalated))
  }

  predicate Awaiting(at: At) { at == Before(Handshake) || at == Before(Asked) || at.Pulling? }

  /** The abort listener is registered once, when the session has opened. */
  predicate Listening(t: Turn) { t.at.Sending? || t.talk.prompts != [] }

  predicate Latest(asked: seq<nat>, q: nat) { forall k | 0 <= k < |asked| :: asked[k] < q }

  /** One event. An event that cannot happen where the program stands changes nothing. */
  function Next(c: Setup, t: Turn, e: Event): Turn {
    match e
    case Step => StepOn(c, t)
    case Answered(ok) =>
      if t.at != Before(Handshake) then t else t.(at := if ok then Before(Recording) else Threw("handshake-mismatch"))
    case SessionGiven(id) =>
      if t.at != Before(Asked) then t else t.(at := Before(Journaling(if c.resume.Some? then c.resume.value else id)))
    case Broken(reason) => if Awaiting(t.at) then t.(at := Threw(reason)) else t
    case Deliver(m) =>
      if t.pipe.gateOpen then t.(pipe := t.pipe.(read := t.pipe.read + [m])) else t
    case Take => if Ready(t) then Pull(t) else t
    case Abort => if t.control.cancel.None? && Listening(t) then Cancel(c, t) else t
    case Timer => if t.control.armed then t.(control := t.control.(escalated := true)) else t
    case Interject(q) =>
      if Latest(t.guidance.asked, q) then t.(guidance := t.guidance.(asked := t.guidance.asked + [q])) else t
  }

  function Run(c: Setup, t: Turn, events: seq<Event>): Turn {
    if events == [] then t else Next(c, Run(c, t, Init(events)), Last(events))
  }

  // ---------- The turn loop ----------

  /** Every prompt has its stop, but for the one whose turn is under way. */
  predicate Paired(at: At, talk: Talk) {
    && |talk.stops| <= |talk.prompts| <= |talk.stops| + 1
    && (InTurn(at) ==> |talk.prompts| == |talk.stops| + 1 && Last(talk.prompts) == at.prompt)
    && (at.Resting? ==> |talk.prompts| == |talk.stops| > 0 && Last(talk.prompts) == at.prompt)
    && (at.Left? ==> |talk.stops| > 0)
    && (!InTurn(at) && !at.Threw? ==> |talk.prompts| == |talk.stops|)
  }

  /** Of the first `n` prompts, each work prompt's turn stopped because the agent wants more turns. */
  predicate AskedForMore(talk: Talk, n: nat)
    requires n <= |talk.prompts| && n <= |talk.stops|
  {
    forall j | 0 <= j < n :: talk.prompts[j].Work? ==> talk.stops[j].MaxTurnRequests?
  }

  /** Every work prompt but the one last sent asked for more; in a round, the last one too. */
  predicate Continues(at: At, talk: Talk) {
    && Paired(at, talk)
    && AskedForMore(talk, if (OwesWork(at) && !InTurn(at)) || talk.prompts == [] then |talk.prompts|
                          else |talk.prompts| - 1)
  }

  predicate TurnContinues(t: Turn) { Continues(t.at, t.talk) }

  lemma {:induction false} DecideContinues(c: Setup, t: Turn)
    requires TurnContinues(t) && t.at == Resting(Work)
    ensures TurnContinues(Decide(c, t))
  {
  }

  lemma {:induction false} StepContinues(c: Setup, t: Turn)
    requires TurnContinues(t)
    ensures TurnContinues(StepOn(c, t))
  {
    if t.at == Resting(Work) { DecideContinues(c, t); }
  }

  lemma {:induction false} PullContinues(t: Turn)
    requires TurnContinues(t) && Ready(t)
    ensures TurnContinues(Pull(t))
  {
  }

  lemma {:induction false} NextContinues(c: Setup, t: Turn, e: Event)
    requires TurnContinues(t)
    ensures TurnContinues(Next(c, t, e))
  {
    match e
    case Step => StepContinues(c, t);
    case Take => if Ready(t) { PullContinues(t); }
    case _ =>
  }

  function Works(prompts: seq<Prompt>): nat {
    if prompts == [] then 0 else Works(Init(prompts)) + if Last(prompts).Work? then 1 else 0
  }

  lemma {:induction false} WorksPush(prompts: seq<Prompt>, p: Prompt)
    ensures Works(prompts + [p]) == Works(prompts) + if p.Work? then 1 else 0
  {
    assert Init(prompts + [p]) == prompts;
  }

  function MaxWork(c: Setup): int {
    if c.budget.Some? && c.budget.value > 1 then c.budget.value else 1
  }

  /** The count of turns run, and that a round is begun only where it leaves room for a work turn. */
  predicate Budgeted(c: Setup, at: At, talk: Talk) {
    && Works(talk.prompts) <= MaxWork(c)
    && (OwesWork(at) ==> Works(talk.prompts) == talk.turnsRun < MaxWork(c))
    && ((InTurn(at) || at.Resting?) && at.prompt.Work? ==> Works(talk.prompts) == talk.turnsRun + 1)
  }

  predicate TurnBudgeted(c: Setup, t: Turn) { Budgeted(c, t.at, t.talk) }

  lemma {:induction false} SendBudgeted(c: Setup, t: Turn)
    requires TurnBudgeted(c, t) && t.at.Sending?
    ensures TurnBudgeted(c, Send(t, t.at.prompt))
  {
    WorksPush(t.talk.prompts, t.at.prompt);
  }

  lemma {:induction false} DecideBudgeted(c: Setup, t: Turn)
    requires TurnBudgeted(c, t) && t.at == Resting(Work) && t.talk.stops != []
    ensures TurnBudgeted(c, Decide(c, t))
  {
  }

  lemma {:induction false} StepBudgeted(c: Setup, t: Turn)
    requires TurnBudgeted(c, t)
    ensures TurnBudgeted(c, StepOn(c, t))
  {
    match t.at
    case Sending(_) => SendBudgeted(c, t);
    case Resting(p) => if p.Work? && t.talk.stops != [] { DecideBudgeted(c, t); }
    case _ =>
  }

  lemma {:induction false} NextBudgeted(c: Setup, t: Turn, e: Event)
    requires TurnBudgeted(c, t)
    ensures TurnBudgeted(c, Next(c, t, e))
  {
    if e.Step? { StepBudgeted(c, t); }
  }

  // ---------- Cancelling ----------

  function WorksSince(prompts: seq<Prompt>, n: nat): nat {
    if |prompts| <= n then 0 else WorksSince(Init(prompts), n) + if Last(prompts).Work? then 1 else 0
  }

  lemma {:induction false} WorksSincePush(prompts: seq<Prompt>, p: Prompt, n: nat)
    requires n <= |prompts|
    ensures WorksSince(prompts + [p], n) == WorksSince(prompts, n) + if p.Work? then 1 else 0
  {
    assert Init(prompts + [p]) == prompts;
  }

  /** After a cancel the round under way may finish, and no other starts. */
  predicate WindsDown(at: At, talk: Talk, cancel: Option<Mark>) {
    cancel.Some? ==>
      && cancel.value.sent <= |talk.prompts|
      && (!cancel.value.owesWork ==> !OwesWork(at) && |talk.prompts| == cancel.value.sent)
      && WorksSince(talk.prompts, cancel.value.sent) <= (if OwesWork(at) then 0 else 1)
      && NoWork(talk.prompts, cancel.value.sent, if OwesWork(at) then |talk.prompts| else |talk.prompts| - 1)
  }

  /** No work prompt from the `i`th to before the `j`th. */
  predicate NoWork(prompts: seq<Prompt>, i: int, j: int)
    requires 0 <= i && j <= |prompts|
  {
    forall k | i <= k < j :: !prompts[k].Work?
  }

  predicate TurnWindsDown(t: Turn) { WindsDown(t.at, t.talk, t.control.cancel) }

  lemma {:induction false} StepWindsDown(c: Setup, t: Turn)
    requires TurnWindsDown(t)
    ensures TurnWindsDown(StepOn(c, t))
  {
    if t.at.Sending? && t.control.cancel.Some? {
      WorksSincePush(t.talk.prompts, t.at.prompt, t.control.cancel.value.sent);
    }
  }

  lemma {:induction false} NextWindsDown(c: Setup, t: Turn, e: Event)
    requires TurnWindsDown(t)
    ensures TurnWindsDown(Next(c, t, e))
  {
    if e.Step? { StepWindsDown(c, t); }
  }

  // ---------- Pulling ----------

  function Updates(read: seq<Message>, n: nat): seq<string>
    requires n <= |read|
  {
    if n == 0 then []
    else Updates(read, n - 1) + if read[n - 1].Update? then [read[n - 1].update] else []
  }

  lemma {:induction false} UpdatesGrow(read: seq<Message>, m: Message, n: nat)
    requires n <= |read|
    ensures Updates(read + [m], n) == Updates(read, n)
  {
    if n > 0 { UpdatesGrow(read, m, n - 1); }
  }

  function Chunks(rows: seq<Row>): seq<string> {
    if rows == [] then [] else Chunks(Init(rows)) + if Last(rows).Chunk? then [Last(rows).data] else []
  }

  function Notes(rows: seq<Row>): seq<string> {
    if rows == [] then [] else Notes(Init(rows)) + if Last(rows).UpdateFiled? then [Last(rows).update] else []
  }

  lemma {:induction false} RowsPushed(rows: seq<Row>, r: Row)
    ensures Chunks(rows + [r]) == Chunks(rows) + if r.Chunk? then [r.data] else []
    ensures Notes(rows + [r]) == Notes(rows) + if r.UpdateFiled? then [r.update] else []
  {
    assert Init(rows + [r]) == rows;
  }

  /** Both rows of every update pulled are durable, but for the one being filed; while it is, the
      gate is closed. */
  predicate Durable(at: At, filed: seq<Row>, pipe: Pipe) {
    && pipe.pulled <= |pipe.read| && pipe.gateOpen == !at.Filing?
    && (!at.Filing? ==> Chunks(filed) == Notes(filed) == Updates(pipe.read, pipe.pulled))
    && (at.Filing? ==>
          && Notes(filed) + [at.update] == Updates(pipe.read, pipe.pulled)
          && Chunks(filed) == if at.chunked then Notes(filed) + [at.update] else Notes(filed))
  }

  predicate TurnDurable(t: Turn) { Durable(t.at, t.filed, t.pipe) }

  lemma {:induction false} StepDurable(c: Setup, t: Turn)
    requires TurnDurable(t)
    ensures TurnDurable(StepOn(c, t))
  {
    var next := StepOn(c, t);
    if next.filed != t.filed {
      assert next.filed == t.filed + [Last(next.filed)];
      RowsPushed(t.filed, Last(next.filed));
    }
  }

  lemma {:induction false} NextDurable(c: Setup, t: Turn, e: Event)
    requires TurnDurable(t)
    ensures TurnDurable(Next(c, t, e))
  {
    if e.Step? { StepDurable(c, t); }
    if e.Deliver? { UpdatesGrow(t.pipe.read, e.message, t.pipe.pulled); }
  }

  // ---------- Corrections ----------

  predicate Ascending(s: seq<nat>) {
    forall j, k | 0 <= j < k < |s| :: s[j] < s[k]
  }

  lemma {:induction false} PendingHolds(asked: seq<nat>, receipted: set<nat>, q: nat)
    ensures q in Pending(asked, receipted) <==> q in asked && q !in receipted
  {
    if asked != [] {
      PendingHolds(Init(asked), receipted, q);
      assert asked == Init(asked) + [Last(asked)];
    }
  }

  lemma {:induction false} PendingAscends(asked: seq<nat>, receipted: set<nat>)
    requires Ascending(asked)
    ensures Ascending(Pending(asked, receipted))
  {
    if asked != [] {
      PendingAscends(Init(asked), receipted);
      var p := Pending(Init(asked), receipted);
      forall k | 0 <= k < |p| ensures p[k] < Last(asked) {
        assert p[k] in p;
        PendingHolds(Init(asked), receipted, p[k]);
      }
    }
  }

  /** The corrections sent in this life, in order. */
  function Corrections(prompts: seq<Prompt>): seq<nat> {
    if prompts == [] then []
    else Corrections(Init(prompts)) + if Last(prompts).Correction? then [Last(prompts).interjection] else []
  }

  /** The correction whose turn is about to run, runs, or waits for its receipt. */
  function Current(at: At): Option<nat> {
    if (at.Sending? || InTurn(at) || at.Resting?) && at.prompt.Correction? then Some(at.prompt.interjection) else None
  }

  predicate AllIn(s: seq<nat>, asked: seq<nat>) { forall k | 0 <= k < |s| :: s[k] in asked }

  predicate Rooted(asked: seq<nat>, sent: seq<nat>) {
    Ascending(asked) && Ascending(sent) && AllIn(sent, asked)
  }

  /** The list being delivered: asked for, without a receipt, and not the current correction. */
  predicate Listed(g: Guidance, current: Option<nat>) {
    && Ascending(g.todo) && AllIn(g.todo, g.asked)
    && forall k | 0 <= k < |g.todo| :: g.todo[k] !in g.receipted && Some(g.todo[k]) != current
  }

  /** The last correction chosen in this life. */
  function High(current: Option<nat>, sent: seq<nat>): int {
    if current.Some? then current.value else if sent != [] then Last(sent) else -1
  }

  /** What waits is later than everything chosen and everything in the list being delivered. */
  predicate Waits(g: Guidance, current: Option<nat>, high: int) {
    forall k | 0 <= k < |g.asked| && g.asked[k] !in g.receipted && Some(g.asked[k]) != current ::
      g.asked[k] > high && (g.asked[k] in g.todo || g.todo == [] || g.asked[k] > Last(g.todo))
  }

  /** The current correction is asked for, and is the last sent or comes after it. */
  predicate Chosen(g: Guidance, current: Option<nat>, sending: bool, sent: seq<nat>) {
    current.Some? ==>
      && current.value in g.asked
      && (sending ==> sent == [] || Last(sent) < current.value)
      && (!sending ==> sent != [] && Last(sent) == current.value)
  }

  /** Corrections go out oldest first: what was sent, what is left of the list being delivered, and
      what is still waiting, in this order. */
  predicate Steers(at: At, prompts: seq<Prompt>, g: Guidance) {
    var sent, current := Corrections(prompts), Current(at);
    && Rooted(g.asked, sent)
    && (!at.Threw? ==>
          && Listed(g, current)
          && Chosen(g, current, at.Sending? && current.Some?, sent)
          && Waits(g, current, High(current, sent)))
  }

  predicate TurnSteers(t: Turn) { Steers(t.at, t.talk.prompts, t.guidance) }

  lemma {:induction false} CorrectionsPush(prompts: seq<Prompt>, p: Prompt)
    ensures Corrections(prompts + [p]) == Corrections(prompts) + if p.Correction? then [p.interjection] else []
  {
    assert Init(prompts + [p]) == prompts;
  }

  lemma {:induction false} SendSteers(t: Turn)
    requires TurnSteers(t) && t.at.Sending?
    ensures TurnSteers(Send(t, t.at.prompt))
  {
    CorrectionsPush(t.talk.prompts, t.at.prompt);
  }

  /** Where neither the prompts, nor the corrections, nor the correction at hand changes. */
  lemma {:induction false} MoveSteers(at: At, next: At, prompts: seq<Prompt>, g: Guidance)
    requires Steers(at, prompts, g)
    requires || next.Threw?
             || (!at.Threw? && Current(next) == Current(at) && (Current(at).Some? ==> next.Sending? == at.Sending?))
    ensures Steers(next, prompts, g)
  {
  }

  lemma {:induction false} CollectSteers(c: Setup, t: Turn)
    requires TurnSteers(t) && t.at == Between(Collecting)
    ensures TurnSteers(StepBetween(c, t, Collecting))
  {
    var g := t.guidance;
    PendingAscends(g.asked, g.receipted);
    forall q ensures q in Pending(g.asked, g.receipted) <==> q in g.asked && q !in g.receipted {
      PendingHolds(g.asked, g.receipted, q);
    }
  }

  function Popped(g: Guidance): Guidance
    requires g.todo != []
  {
    g.(todo := g.todo[1..])
  }

  lemma {:induction false} PopListed(g: Guidance)
    requires Listed(g, None) && g.todo != []
    ensures Listed(Popped(g), Some(g.todo[0])) && g.todo[0] in g.asked
  {
    forall k | 0 <= k < |Popped(g).todo| ensures Popped(g).todo[k] == g.todo[k + 1] { }
  }

  lemma {:induction false} PopWaits(g: Guidance, high: int)
    requires Listed(g, None) && g.todo != [] && Waits(g, None, high)
    ensures Waits(Popped(g), Some(g.todo[0]), g.todo[0]) && g.todo[0] > high
  {
    var h, rest := g.todo[0], g.todo[1..];
    assert g.todo == [h] + rest;
    forall k | 0 <= k < |g.asked| && g.asked[k] !in g.receipted && Some(g.asked[k]) != Some(h)
      ensures g.asked[k] > h && (g.asked[k] in rest || rest == [] || g.asked[k] > Last(rest))
    {
      if g.asked[k] in g.todo {
        var m :| 0 <= m < |g.todo| && g.todo[m] == g.asked[k];
        assert rest[m - 1] == g.asked[k];
      }
    }
    assert h in g.asked && h !in g.receipted;
  }

  lemma {:induction false} DeliverSteers(c: Setup, t: Turn)
    requires TurnSteers(t) && t.at == Between(Delivering) && t.guidance.todo != []
    ensures TurnSteers(StepBetween(c, t, Delivering))
  {
    PopListed(t.guidance);
    PopWaits(t.guidance, High(None, Corrections(t.talk.prompts)));
  }

  lemma {:induction false} RestSteers(c: Setup, t: Turn)
    requires TurnSteers(t) && t.at.Resting?
    ensures TurnSteers(Rest(c, t, t.at.prompt))
  {
  }

  lemma {:induction false} BetweenSteers(c: Setup, t: Turn, place: Place)
    requires TurnSteers(t) && t.at == Between(place)
    ensures TurnSteers(StepBetween(c, t, place))
  {
    match place
    case Reinjecting => MoveSteers(t.at, Sending(Pins), t.talk.prompts, t.guidance);
    case Collecting => CollectSteers(c, t);
    case Delivering =>
      if t.guidance.todo == [] {
        MoveSteers(t.at, Sending(Work), t.talk.prompts, t.guidance);
      } else {
        DeliverSteers(c, t);
      }
  }

  lemma {:induction false} OpeningSteers(c: Setup, t: Turn, stage: Stage)
    requires TurnSteers(t) && t.at == Before(stage)
    ensures TurnSteers(StepOpening(c, t, stage))
  {
    MoveSteers(t.at, StepOpening(c, t, stage).at, t.talk.prompts, t.guidance);
  }

  lemma {:induction false} StepSteers(c: Setup, t: Turn)
    requires TurnSteers(t)
    ensures TurnSteers(StepOn(c, t))
  {
    match t.at
    case Before(stage) => OpeningSteers(c, t, stage);
    case Sending(_) => SendSteers(t);
    case Filing(p, u, chunked) => MoveSteers(t.at, StepFiling(t, p, u, chunked).at, t.talk.prompts, t.guidance);
    case Resting(_) => RestSteers(c, t);
    case Between(place) => BetweenSteers(c, t, place);
    case Pulling(_) =>
    case Left =>
    case Threw(_) =>
  }

  lemma {:induction false} InterjectSteers(c: Setup, t: Turn, q: nat)
    requires TurnSteers(t)
    ensures TurnSteers(Next(c, t, Interject(q)))
  {
  }

  lemma {:induction false} NextSteers(c: Setup, t: Turn, e: Event)
    requires TurnSteers(t)
    ensures TurnSteers(Next(c, t, e))
  {
    match e
    case Step => StepSteers(c, t);
    case Interject(q) => InterjectSteers(c, t, q);
    case Take => if Ready(t) { MoveSteers(t.at, Pull(t).at, t.talk.prompts, t.guidance); }
    case Answered(_) => if t.at.Before? { MoveSteers(t.at, Next(c, t, e).at, t.talk.prompts, t.guidance); }
    case SessionGiven(_) => if t.at.Before? { MoveSteers(t.at, Next(c, t, e).at, t.talk.prompts, t.guidance); }
    case Broken(reason) => MoveSteers(t.at, Threw(reason), t.talk.prompts, t.guidance);
    case Deliver(_) =>
    case Abort =>
    case Timer =>
  }

  // ---------- Receipts ----------

  /** The correction went out and its turn has stopped. */
  predicate Heard(talk: Talk, q: nat) {
    exists k | 0 <= k < |talk.prompts| && k < |talk.stops| :: talk.prompts[k] == Correction(q)
  }

  /** Every receipt is for a correction whose turn has stopped. */
  predicate Honest(filed: seq<Row>, talk: Talk) {
    forall k | 0 <= k < |filed| && filed[k].Delivered? :: Heard(talk, filed[k].interjection)
  }

  lemma {:induction false} HeardStays(talk: Talk, more: Talk, q: nat)
    requires Heard(talk, q) && talk.prompts <= more.prompts && talk.stops <= more.stops
    ensures Heard(more, q)
  {
    var k :| 0 <= k < |talk.prompts| && k < |talk.stops| && talk.prompts[k] == Correction(q);
    assert more.prompts[k] == Correction(q);
  }

  lemma {:induction false} HonestGrows(filed: seq<Row>, talk: Talk, more: Talk, r: Row)
    requires Honest(filed, talk) && talk.prompts <= more.prompts && talk.stops <= more.stops
    requires r.Delivered? ==> Heard(more, r.interjection)
    ensures Honest(filed, more) && Honest(filed + [r], more)
  {
    forall k | 0 <= k < |filed| && filed[k].Delivered? ensures Heard(more, filed[k].interjection) {
      HeardStays(talk, more, filed[k].interjection);
    }
  }

  lemma {:induction false} NextHonest(c: Setup, t: Turn, e: Event)
    requires Honest(t.filed, t.talk) && Paired(t.at, t.talk)
    ensures Honest(Next(c, t, e).filed, Next(c, t, e).talk)
  {
    var next := Next(c, t, e);
    if next.filed != t.filed {
      assert next.filed == t.filed + [Last(next.filed)];
      if t.at.Resting? && t.at.prompt.Correction? {
        assert t.talk.prompts[|t.talk.prompts| - 1] == Correction(t.at.prompt.interjection);
        assert Heard(t.talk, t.at.prompt.interjection);
      }
      HonestGrows(t.filed, t.talk, next.talk, Last(next.filed));
    } else {
      HonestGrows(t.filed, t.talk, next.talk, Scheduled);
    }
  }

  // ---------- Records before what they record ----------

  function SessionOf(c: Setup, id: string): string { if c.resume.Some? then c.resume.value else id }

  /** The rows of the opening, by stage; no session is asked for before the first, no prompt goes out
      before the last. */
  predicate Recorded(c: Setup, at: At, filed: seq<Row>, frames: seq<Frame>) {
    match at
    case Before(stage) => RecordedBefore(c, stage, filed, frames)
    case Threw(_) => true
    case _ => |filed| >= 3 && RecordedSession(c, filed[..3])
  }

  predicate RecordedSession(c: Setup, rows: seq<Row>) {
    && |rows| == 3 && rows[0] == Started(c.binary, None)
    && rows[2].SessionOpened? && rows[1] == Started(c.binary, Some(rows[2].id))
    && (c.resume.Some? ==> rows[2].id == c.resume.value)
  }

  predicate RecordedBefore(c: Setup, stage: Stage, filed: seq<Row>, frames: seq<Frame>) {
    var first := Started(c.binary, None);
    match stage
    case Connecting => filed == [] && frames == []
    case Handshake => filed == [] && frames == [Initialize]
    case Recording => filed == [] && frames == [Initialize]
    case Opening => filed == [first] && frames == [Initialize]
    case Asked => filed == [first]
    case Journaling(id) => filed == [first] && id == SessionOf(c, id)
    case Announcing(id) => filed == [first, Started(c.binary, Some(id))] && id == SessionOf(c, id)
    case Reviewing => RecordedSession(c, filed)
  }

  lemma {:induction false} NextRecorded(c: Setup, t: Turn, e: Event)
    requires Recorded(c, t.at, t.filed, t.frames) && (t.at.Before? ==> !Listening(t))
    ensures Recorded(c, Next(c, t, e).at, Next(c, t, e).filed, Next(c, t, e).frames)
  {
  }

  /** The rows of this program: none closes anything, and its start records name the binary it was given. */
  predicate OwnRow(c: Setup, r: Row) {
    match r
    case Started(binary, _) => binary == c.binary
    case SessionOpened(_) => true
    case Chunk(_) => true
    case UpdateFiled(_) => true
    case PinsReinjected(_) => true
    case Delivered(_) => true
    case _ => false
  }

  predicate OwnRows(c: Setup, filed: seq<Row>) { forall k | 0 <= k < |filed| :: OwnRow(c, filed[k]) }

  /** A session is resumed only by the id given, and opened only where none was. */
  predicate Faithful(c: Setup, frames: seq<Frame>) {
    forall k | 0 <= k < |frames| ::
      && (frames[k].ResumeSession? ==> c.resume == Some(frames[k].id))
      && (frames[k].NewSession? ==> c.resume.None?)
  }

  predicate Plain(c: Setup, t: Turn) {
    OwnRows(c, t.filed) && Faithful(c, t.frames) && (t.at.Before? ==> t.talk.prompts == [])
  }

  lemma {:induction false} NextPlain(c: Setup, t: Turn, e: Event)
    requires Plain(c, t)
    ensures Plain(c, Next(c, t, e))
  {
  }

  /** No correction with a receipt from an earlier life is chosen. */
  predicate Unrepeated(receipted: set<nat>, t: Turn) {
    && receipted <= t.guidance.receipted
    && (Current(t.at).Some? ==> Current(t.at).value !in receipted)
    && (forall k | 0 <= k < |Corrections(t.talk.prompts)| :: Corrections(t.talk.prompts)[k] !in receipted)
  }

  lemma {:induction false} SendUnrepeated(t: Turn, receipted: set<nat>)
    requires Unrepeated(receipted, t) && t.at.Sending?
    ensures Unrepeated(receipted, Send(t, t.at.prompt))
  {
    CorrectionsPush(t.talk.prompts, t.at.prompt);
  }

  lemma {:induction false} DeliverUnrepeated(c: Setup, t: Turn, receipted: set<nat>)
    requires Unrepeated(receipted, t) && t.at.Between? && Listed(t.guidance, None)
    ensures Unrepeated(receipted, StepBetween(c, t, t.at.place))
  {
  }

  lemma {:induction false} StepUnrepeated(c: Setup, t: Turn, receipted: set<nat>)
    requires Unrepeated(receipted, t) && (t.at.Between? ==> Listed(t.guidance, None))
    ensures Unrepeated(receipted, StepOn(c, t))
  {
    match t.at
    case Sending(_) => SendUnrepeated(t, receipted);
    case Between(_) => DeliverUnrepeated(c, t, receipted);
    case _ =>
  }

  lemma {:induction false} NextUnrepeated(c: Setup, t: Turn, e: Event, receipted: set<nat>)
    requires Unrepeated(receipted, t) && (t.at.Between? ==> Listed(t.guidance, None))
    ensures Unrepeated(receipted, Next(c, t, e))
  {
    if e.Step? { StepUnrepeated(c, t, receipted); }
  }

  /** What has a receipt had one before this life, or was sent in it. */
  predicate Received(receipted: set<nat>, g: Guidance, prompts: seq<Prompt>) {
    forall q | q in g.receipted :: q in receipted || q in Corrections(prompts)
  }

  lemma {:induction false} NextReceived(c: Setup, t: Turn, e: Event, receipted: set<nat>)
    requires Received(receipted, t.guidance, t.talk.prompts)
    requires t.at.Resting? ==> Chosen(t.guidance, Current(t.at), false, Corrections(t.talk.prompts))
    ensures Received(receipted, Next(c, t, e).guidance, Next(c, t, e).talk.prompts)
  {
    if e.Step? && t.at.Sending? {
      CorrectionsPush(t.talk.prompts, t.at.prompt);
    } else {
      assert Next(c, t, e).talk.prompts == t.talk.prompts;
    }
  }

  // ---------- The re-injection interval ----------

  /** The counter after `n` work turns. */
  function Since(every: int, n: nat): int {
    if n == 0 then 0 else AfterTurn(every, Since(every, n - 1)).0
  }

  /** What is left of `n` when whole intervals are taken away. */
  function Remainder(n: nat, p: nat): nat
    requires p > 0
  {
    if n < p then n else Remainder(n - p, p)
  }

  lemma {:induction false} NextRemainder(n: nat, p: nat)
    requires n > 0 && p > 0
    ensures Remainder(n, p) == if Remainder(n - 1, p) + 1 < p then Remainder(n - 1, p) + 1 else 0
  {
    if n > p { NextRemainder(n - p, p); }
  }

  /** The pins come due after every turn whose number the interval divides, and after no other; an
      interval below one counts as one. */
  lemma {:induction false} PinsAreDueEvery(every: int, n: nat)
    ensures var p := if every > 1 then every else 1;
            && Since(every, n) == Remainder(n, p)
            && (n > 0 ==> (AfterTurn(every, Since(every, n - 1)).1 <==> Remainder(n, p) == 0))
  {
    if n > 0 {
      PinsAreDueEvery(every, n - 1);
      NextRemainder(n, if every > 1 then every else 1);
    }
  }

  // ---------- Every run ----------

  predicate Safe(c: Setup, receipted: set<nat>, t: Turn) {
    && TurnContinues(t) && TurnBudgeted(c, t) && TurnWindsDown(t) && TurnDurable(t) && TurnSteers(t)
    && Honest(t.filed, t.talk) && Recorded(c, t.at, t.filed, t.frames) && Plain(c, t) && Unrepeated(receipted, t)
    && Received(receipted, t.guidance, t.talk.prompts)
  }

  lemma {:induction false} StartIsSafe(c: Setup, asked: seq<nat>, receipted: set<nat>)
    requires Ascending(asked)
    ensures Safe(c, receipted, Start(asked, receipted))
  {
  }

  lemma {:induction false} NextIsSafe(c: Setup, t: Turn, e: Event, receipted: set<nat>)
    requires Safe(c, receipted, t)
    ensures Safe(c, receipted, Next(c, t, e))
  {
    NextContinues(c, t, e);
    NextBudgeted(c, t, e);
    NextWindsDown(c, t, e);
    NextDurable(c, t, e);
    NextSteers(c, t, e);
    NextHonest(c, t, e);
    NextRecorded(c, t, e);
    NextPlain(c, t, e);
    NextUnrepeated(c, t, e, receipted);
    NextReceived(c, t, e, receipted);
  }

  /** Whatever happens, in whatever order, and wherever the life ends. */
  lemma {:induction false} RunIsSafe(c: Setup, asked: seq<nat>, receipted: set<nat>, events: seq<Event>)
    requires Ascending(asked)
    ensures Safe(c, receipted, Run(c, Start(asked, receipted), events))
  {
    if events == [] {
      StartIsSafe(c, asked, receipted);
    } else {
      RunIsSafe(c, asked, receipted, Init(events));
      NextIsSafe(c, Run(c, Start(asked, receipted), Init(events)), Last(events), receipted);
    }
  }

  /** When the next update is asked for, the gate is open and both rows of every update before it
      are durable; at no time is an update filed that was not pulled, or out of order. */
  lemma {:induction false} FiledBeforePulled(c: Setup, asked: seq<nat>, receipted: set<nat>, events: seq<Event>)
    requires Ascending(asked)
    ensures var t := Run(c, Start(asked, receipted), events);
            && t.pipe.pulled <= |t.pipe.read|
            && var pulled := Updates(t.pipe.read, t.pipe.pulled);
            && (t.at.Pulling? ==> t.pipe.gateOpen && Chunks(t.filed) == Notes(t.filed) == pulled)
            && Notes(t.filed) <= Chunks(t.filed) <= pulled && |pulled| <= |Notes(t.filed)| + 1
  {
    RunIsSafe(c, asked, receipted, events);
  }

  /** Work prompts keep to the budget, and nothing is sent behind a work turn unless it stopped
      because the agent wanted more turns. */
  lemma {:induction false} TurnsKeepToBudget(c: Setup, asked: seq<nat>, receipted: set<nat>, events: seq<Event>)
    requires Ascending(asked)
    ensures var talk := Run(c, Start(asked, receipted), events).talk;
            && Works(talk.prompts) <= MaxWork(c)
            && |talk.stops| <= |talk.prompts| <= |talk.stops| + 1
            && forall j | 0 <= j < |talk.prompts| - 1 && talk.prompts[j].Work? :: talk.stops[j].MaxTurnRequests?
  {
    RunIsSafe(c, asked, receipted, events);
  }

  /** After a cancel only the round under way finishes: no prompt at all where its work turn was
      already out, and one work prompt at most where it was not, with nothing sent behind it. */
  lemma {:induction false} CancelEndsTheRound(c: Setup, asked: seq<nat>, receipted: set<nat>, events: seq<Event>)
    requires Ascending(asked)
    ensures var t := Run(c, Start(asked, receipted), events);
            t.control.cancel.Some? ==>
              && WorksSince(t.talk.prompts, t.control.cancel.value.sent) <= 1
              && NoWork(t.talk.prompts, t.control.cancel.value.sent, |t.talk.prompts| - 1)
              && (!t.control.cancel.value.owesWork ==> |t.talk.prompts| == t.control.cancel.value.sent)
  {
    RunIsSafe(c, asked, receipted, events);
  }

  /** Corrections go out in the order of their seq, none twice in a life and none that an earlier
      life filed a receipt for; a receipt is filed only behind the stop of its turn. */
  lemma {:induction false} CorrectionsOnceInOrder(c: Setup, asked: seq<nat>, receipted: set<nat>, events: seq<Event>)
    requires Ascending(asked)
    ensures var t := Run(c, Start(asked, receipted), events);
            && Ascending(Corrections(t.talk.prompts))
            && (forall q | q in Corrections(t.talk.prompts) :: q !in receipted)
            && (forall k | 0 <= k < |t.filed| && t.filed[k].Delivered? :: Heard(t.talk, t.filed[k].interjection))
  {
    RunIsSafe(c, asked, receipted, events);
  }

  // ---------- Lives ----------

  datatype Life = Life(setup: Setup, events: seq<Event>)

  /** The interjections in the ledger, those with a receipt, and every correction that was sent. */
  datatype Record = Record(asked: seq<nat>, receipted: set<nat>, sent: set<nat>)

  function SetOf(s: seq<nat>): set<nat> { set q | q in s }

  function AfterLives(lives: seq<Life>): Record {
    if lives == [] then Record([], {}, {})
    else
      var r, life := AfterLives(Init(lives)), Last(lives);
      var t := Run(life.setup, Start(r.asked, r.receipted), life.events);
      Record(t.guidance.asked, t.guidance.receipted, r.sent + SetOf(Corrections(t.talk.prompts)))
  }

  /** Over any number of lives, each cut off anywhere, the ledger never claims a correction was
      delivered that no life sent. */
  lemma {:induction false} ReceiptsWereSent(lives: seq<Life>)
    ensures Ascending(AfterLives(lives).asked)
    ensures AfterLives(lives).receipted <= AfterLives(lives).sent
  {
    if lives != [] {
      var r, life := AfterLives(Init(lives)), Last(lives);
      ReceiptsWereSent(Init(lives));
      RunIsSafe(life.setup, r.asked, r.receipted, life.events);
    }
  }
}
