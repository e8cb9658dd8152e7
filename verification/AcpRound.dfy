/** What exactly a round of an ACP attempt does (run-node.ts): when the program goes on, when the pins go
    out, which corrections, and when a cancel escalates. */
module AcpRound {
  import opened Options
  import opened Lines
  import opened Ledger
  import opened AcpTurn

  /** The program behind the first `n` events of a life. */
  datatype Story = Story(c: Setup, asked: seq<nat>, receipted: set<nat>, events: seq<Event>)

  function After(y: Story, n: nat): Turn
    requires n <= |y.events|
  {
    AcpTurn.Run(y.c, Start(y.asked, y.receipted), y.events[..n])
  }

  lemma {:induction false} AfterNext(y: Story, n: nat)
    requires n < |y.events| && Ascending(y.asked)
    ensures After(y, n + 1) == Next(y.c, After(y, n), y.events[n])
    ensures Safe(y.c, y.receipted, After(y, n))
  {
    assert Init(y.events[..n + 1]) == y.events[..n];
    RunIsSafe(y.c, y.asked, y.receipted, y.events[..n]);
  }

  // ---------- Going on ----------

  /** The pins are put in again at all. */
  predicate Reinjects(c: Setup) { c.everyTurns.Some? && c.pins && c.steerable }

  /** The pins are due behind the `n`th work turn. */
  predicate PinsDue(c: Setup, n: nat) {
    Reinjects(c) && Remainder(n, if c.everyTurns.value > 1 then c.everyTurns.value else 1) == 0
  }

  /** The counter has counted the work turns that are over. */
  predicate Counted(c: Setup, t: Turn) {
    && (t.at.Before? ==> t.talk.turnsRun == 0)
    && (!t.at.Before? && !t.at.Threw? ==>
          t.talk.counter == if Reinjects(c) then Some(Since(c.everyTurns.value, t.talk.turnsRun)) else None)
  }

  lemma {:induction false} DecideCounted(c: Setup, t: Turn)
    requires Counted(c, t) && t.at == Resting(Work) && t.talk.stops != []
    ensures Counted(c, Decide(c, t))
  {
  }

  lemma {:induction false} NextCounted(c: Setup, t: Turn, e: Event)
    requires Counted(c, t)
    ensures Counted(c, Next(c, t, e))
  {
    if e.Step? && t.at == Resting(Work) && t.talk.stops != [] { DecideCounted(c, t); }
  }

  lemma {:induction false} RunCounted(y: Story, n: nat)
    requires n <= |y.events| && Ascending(y.asked)
    ensures Counted(y.c, After(y, n)) && Safe(y.c, y.receipted, After(y, n))
  {
    if n > 0 {
      RunCounted(y, n - 1);
      AfterNext(y, n - 1);
      NextCounted(y.c, After(y, n - 1), y.events[n - 1]);
    }
    RunIsSafe(y.c, y.asked, y.receipted, y.events[..n]);
  }

  /** There is to be another round behind the `n`th work turn. */
  predicate GoesOn(c: Setup, t: Turn, n: nat)
    requires t.talk.stops != []
  {
    c.budget.Some? && n < c.budget.value && Last(t.talk.stops).MaxTurnRequests? && t.control.cancel.None?
  }

  lemma {:induction false} DecidesExactly(c: Setup, t: Turn, receipted: set<nat>)
    requires Safe(c, receipted, t) && Counted(c, t) && t.at == Resting(Work)
    ensures t.talk.stops != []
    ensures var n := Works(t.talk.prompts);
            Next(c, t, Step).at == if !GoesOn(c, t, n) then Left
                                   else if PinsDue(c, n) then Between(Reinjecting) else Between(Collecting)
  {
    var n := Works(t.talk.prompts);
    assert n == t.talk.turnsRun + 1;
    if Reinjects(c) { PinsAreDueEvery(c.everyTurns.value, n); }
  }

  /** Behind a work turn, whatever happened before: the program leaves exactly where the budget is spent or
      there is none, the agent does not ask for more, or it was cancelled; and else the pins are next exactly
      where they are due. Turns are counted by the work prompts sent. */
  lemma {:induction false} TurnsGoOn(y: Story)
    requires Ascending(y.asked)
    ensures var t := After(y, |y.events|);
            t.at == Resting(Work) ==>
              var n := Works(t.talk.prompts);
              && t.talk.stops != []
              && Next(y.c, t, Step).at == if !GoesOn(y.c, t, n) then Left
                                          else if PinsDue(y.c, n) then Between(Reinjecting) else Between(Collecting)
  {
    var t := After(y, |y.events|);
    RunCounted(y, |y.events|);
    if t.at == Resting(Work) { DecidesExactly(y.c, t, y.receipted); }
  }

  // ---------- The pins ----------

  /** The last prompt was a work prompt behind which the pins are due. */
  predicate DueNow(c: Setup, prompts: seq<Prompt>) {
    prompts != [] && Last(prompts).Work? && PinsDue(c, Works(prompts))
  }

  predicate PinsPlaced(c: Setup, prompts: seq<Prompt>) {
    forall k | 0 <= k < |prompts| :: prompts[k].Pins? <==> DueNow(c, prompts[..k])
  }

  /** What is next is the pins exactly where they are due. */
  predicate PinsNext(c: Setup, at: At, prompts: seq<Prompt>) {
    && (at == Between(Reinjecting) || at == Sending(Pins) ==> DueNow(c, prompts))
    && (at == Between(Collecting) || at == Between(Delivering) || (at.Sending? && !at.prompt.Pins?) ==>
          !DueNow(c, prompts))
  }

  predicate Pinned(c: Setup, t: Turn) {
    && PinsPlaced(c, t.talk.prompts) && PinsNext(c, t.at, t.talk.prompts) && (t.at.Before? ==> t.talk.prompts == [])
  }

  lemma {:induction false} PlacedPush(c: Setup, prompts: seq<Prompt>, p: Prompt)
    requires PinsPlaced(c, prompts) && (p.Pins? <==> DueNow(c, prompts))
    ensures PinsPlaced(c, prompts + [p])
  {
    var more := prompts + [p];
    forall k | 0 <= k < |more| ensures more[k].Pins? <==> DueNow(c, more[..k]) {
      if k < |prompts| { assert more[..k] == prompts[..k]; } else { assert more[..k] == prompts; }
    }
  }

  lemma {:induction false} RestPinned(c: Setup, t: Turn, receipted: set<nat>)
    requires Safe(c, receipted, t) && Counted(c, t) && Pinned(c, t) && t.at == Resting(Work)
    ensures Pinned(c, Next(c, t, Step))
  {
    DecidesExactly(c, t, receipted);
    assert Last(t.talk.prompts).Work? && Next(c, t, Step).talk.prompts == t.talk.prompts;
  }

  lemma {:induction false} NextPinned(c: Setup, t: Turn, e: Event)
    requires Pinned(c, t) && Paired(t.at, t.talk) && !(e.Step? && t.at == Resting(Work))
    ensures Pinned(c, Next(c, t, e))
  {
    if e.Step? && t.at.Sending? { PlacedPush(c, t.talk.prompts, t.at.prompt); }
  }

  /** The pins go out exactly behind the work turns after which they are due, each time at once, and nowhere
      else. */
  lemma {:induction false} PinsGoOutWhenDue(y: Story, n: nat)
    requires n <= |y.events| && Ascending(y.asked)
    ensures var t := After(y, n);
            && Pinned(y.c, t)
            && forall k | 0 <= k < |t.talk.prompts| :: t.talk.prompts[k].Pins? <==> DueNow(y.c, t.talk.prompts[..k])
  {
    if n > 0 {
      PinsGoOutWhenDue(y, n - 1);
      RunCounted(y, n - 1);
      AfterNext(y, n - 1);
      if y.events[n - 1].Step? && After(y, n - 1).at == Resting(Work) {
        RestPinned(y.c, After(y, n - 1), y.receipted);
      } else {
        NextPinned(y.c, After(y, n - 1), y.events[n - 1]);
      }
    }
  }

  /** The number of the work turn behind which each went out. */
  function PinTurns(prompts: seq<Prompt>): seq<nat> {
    if prompts == [] then []
    else PinTurns(Init(prompts)) + if Last(prompts).Pins? then [Works(Init(prompts))] else []
  }

  function PinRows(filed: seq<Row>): seq<nat> {
    if filed == [] then [] else PinRows(Init(filed)) + if Last(filed).PinsReinjected? then [Last(filed).turn] else []
  }

  /** Each time the pins go out a row said so first, with the turn's number, and there are no such rows but those. */
  predicate PinsRecorded(t: Turn) {
    PinRows(t.filed) == PinTurns(t.talk.prompts) + if t.at == Sending(Pins) then [Works(t.talk.prompts)] else []
  }

  lemma {:induction false} PinRowsPush(filed: seq<Row>, row: Row)
    ensures PinRows(filed + [row]) == PinRows(filed) + if row.PinsReinjected? then [row.turn] else []
  {
    assert Init(filed + [row]) == filed;
  }

  lemma {:induction false} PinTurnsPush(prompts: seq<Prompt>, p: Prompt)
    ensures PinTurns(prompts + [p]) == PinTurns(prompts) + if p.Pins? then [Works(prompts)] else []
  {
    assert Init(prompts + [p]) == prompts;
  }

  lemma {:induction false} SendPinsRecorded(t: Turn)
    requires PinsRecorded(t) && t.at.Sending?
    ensures PinsRecorded(Send(t, t.at.prompt))
  {
    PinTurnsPush(t.talk.prompts, t.at.prompt);
  }

  lemma {:induction false} NextPinsRecorded(c: Setup, t: Turn, e: Event)
    requires PinsRecorded(t) && TurnBudgeted(c, t) && !(e.Step? && t.at.Sending?)
    ensures PinsRecorded(Next(c, t, e))
  {
    var next := Next(c, t, e);
    assert next.talk.prompts == t.talk.prompts;
    if next.filed != t.filed {
      assert next.filed == t.filed + [Last(next.filed)];
      PinRowsPush(t.filed, Last(next.filed));
    }
  }

  lemma {:induction false} PinsAreRecorded(y: Story, n: nat)
    requires n <= |y.events| && Ascending(y.asked)
    ensures PinsRecorded(After(y, n))
  {
    if n > 0 {
      PinsAreRecorded(y, n - 1);
      AfterNext(y, n - 1);
      if y.events[n - 1].Step? && After(y, n - 1).at.Sending? {
        SendPinsRecorded(After(y, n - 1));
      } else {
        NextPinsRecorded(y.c, After(y, n - 1), y.events[n - 1]);
      }
    }
  }

  // ---------- The corrections ----------

  /** A correction asked for is not forgotten: it has its receipt, is listed, or is the one under way. */
  predicate Accounted(t: Turn, q: nat) {
    || t.at.Threw? || t.at.Left? || q in t.guidance.receipted || q in t.guidance.todo || Some(q) == Current(t.at)
  }

  lemma {:induction false} AccountedNext(c: Setup, t: Turn, e: Event, q: nat)
    requires Accounted(t, q) && q in t.guidance.asked && c.steerable
    ensures Accounted(Next(c, t, e), q)
  {
    if e.Step? && t.at == Between(Collecting) {
      PendingHolds(t.guidance.asked, t.guidance.receipted, q);
    } else if e.Step? && t.at == Between(Delivering) && t.guidance.todo != [] {
      assert t.guidance.todo == [t.guidance.todo[0]] + t.guidance.todo[1..];
    }
  }

  lemma {:induction false} AskedStays(c: Setup, t: Turn, e: Event, q: nat)
    requires q in t.guidance.asked
    ensures q in Next(c, t, e).guidance.asked
  {
  }

  lemma {:induction false} CollectAccounts(c: Setup, t: Turn, q: nat)
    requires t.at == Between(Collecting) && q in t.guidance.asked && c.steerable
    ensures Accounted(Next(c, t, Step), q) && q in Next(c, t, Step).guidance.asked
  {
    PendingHolds(t.guidance.asked, t.guidance.receipted, q);
  }

  predicate Kept(t: Turn, q: nat) { Accounted(t, q) && q in t.guidance.asked }

  lemma {:induction false} KeptNext(c: Setup, t: Turn, e: Event, q: nat)
    requires Kept(t, q) && c.steerable
    ensures Kept(Next(c, t, e), q)
  {
    AccountedNext(c, t, e, q);
    AskedStays(c, t, e, q);
  }

  lemma {:induction false} KeptThen(y: Story, n: nat, q: nat)
    requires n < |y.events| && Ascending(y.asked) && y.c.steerable && Kept(After(y, n), q)
    ensures Kept(After(y, n + 1), q)
  {
    AfterNext(y, n);
    KeptNext(y.c, After(y, n), y.events[n], q);
  }

  lemma {:induction false} StaysAccounted(y: Story, m: nat, n: nat, q: nat)
    requires m <= n <= |y.events| && Ascending(y.asked) && y.c.steerable && Kept(After(y, m), q)
    ensures Kept(After(y, n), q)
  {
    if m < n {
      StaysAccounted(y, m, n - 1, q);
      KeptThen(y, n - 1, q);
    }
  }

  /** While work is about to be sent, nothing is left of the list. */
  predicate Emptied(t: Turn) {
    && (t.at.Before? || t.at == Between(Reinjecting) ==> t.guidance.todo == [])
    && ((t.at.Sending? || InTurn(t.at) || t.at.Resting?) && !t.at.prompt.Correction? ==> t.guidance.todo == [])
  }

  lemma {:induction false} NextEmptied(c: Setup, t: Turn, e: Event)
    requires Emptied(t)
    ensures Emptied(Next(c, t, e))
  {
  }

  lemma {:induction false} RunEmptied(y: Story, n: nat)
    requires n <= |y.events| && Ascending(y.asked)
    ensures Emptied(After(y, n))
  {
    if n > 0 {
      RunEmptied(y, n - 1);
      AfterNext(y, n - 1);
      NextEmptied(y.c, After(y, n - 1), y.events[n - 1]);
    }
  }

  /** Every correction that had been asked for when the program asked which are pending has its receipt before
      more work goes out. */
  lemma {:induction false} DeliveredBeforeMoreWork(y: Story, m: nat, n: nat, q: nat)
    requires m < n <= |y.events| && Ascending(y.asked) && y.c.steerable
    requires After(y, m).at == Between(Collecting) && y.events[m].Step? && q in After(y, m).guidance.asked
    requires After(y, n).at == Sending(Work)
    ensures q in After(y, n).guidance.receipted
  {
    AfterNext(y, m);
    CollectAccounts(y.c, After(y, m), q);
    StaysAccounted(y, m + 1, n, q);
    RunEmptied(y, n);
  }

  /** The receipts are the ledger's: those it held, and those this life filed. */
  ghost predicate Receipts(receipted: set<nat>, t: Turn) {
    forall q :: q in t.guidance.receipted <==> q in receipted || Delivered(q) in t.filed
  }

  /** Every correction sent has its receipt, but for the one under way. */
  predicate Heeded(t: Turn) {
    t.at.Threw? || forall q | q in Corrections(t.talk.prompts) :: q in t.guidance.receipted || Some(q) == Current(t.at)
  }

  lemma {:induction false} NextReceipts(c: Setup, t: Turn, e: Event, receipted: set<nat>)
    requires Receipts(receipted, t)
    ensures Receipts(receipted, Next(c, t, e))
  {
  }

  lemma {:induction false} NextHeeded(c: Setup, t: Turn, e: Event)
    requires Heeded(t)
    ensures Heeded(Next(c, t, e))
  {
    if e.Step? && t.at.Sending? { CorrectionsPush(t.talk.prompts, t.at.prompt); }
  }

  /** A correction that went out has a receipt as soon as its turn is over, and there are no receipts but those. */
  lemma {:induction false} ReceiptsAreFiled(y: Story, n: nat)
    requires n <= |y.events| && Ascending(y.asked)
    ensures Receipts(y.receipted, After(y, n)) && Heeded(After(y, n))
  {
    if n > 0 {
      ReceiptsAreFiled(y, n - 1);
      AfterNext(y, n - 1);
      NextReceipts(y.c, After(y, n - 1), y.events[n - 1], y.receipted);
      NextHeeded(y.c, After(y, n - 1), y.events[n - 1]);
    }
  }

  // ---------- Cancelling ----------

  /** Event `m` was the cancel. */
  predicate CancelsAt(y: Story, m: nat) {
    m < |y.events| && y.events[m].Abort? && After(y, m).control.cancel.None? && Listening(After(y, m))
  }

  /** How many turns have stopped. */
  function Stopped(y: Story, n: nat): nat
    requires n <= |y.events|
  {
    |After(y, n).talk.stops|
  }

  /** There was a cancel before the `n`th event, and no turn has stopped behind it. */
  predicate Unanswered(y: Story, n: nat)
    requires n <= |y.events|
  {
    exists m | 0 <= m < n :: CancelsAt(y, m) && Stopped(y, m) == Stopped(y, n)
  }

  /** A timer fired before the `n`th event while a cancel was unanswered. */
  predicate RanDown(y: Story, n: nat)
    requires n <= |y.events|
  {
    exists k | 0 <= k < n :: y.events[k].Timer? && Unanswered(y, k)
  }

  lemma {:induction false} NextStops(c: Setup, t: Turn, e: Event)
    ensures |t.talk.stops| <= |Next(c, t, e).talk.stops|
  {
  }

  lemma {:induction false} StopsThen(y: Story, n: nat)
    requires n < |y.events| && Ascending(y.asked)
    ensures Stopped(y, n) <= Stopped(y, n + 1)
  {
    AfterNext(y, n);
    NextStops(y.c, After(y, n), y.events[n]);
  }

  lemma {:induction false} StopsGrow(y: Story, m: nat, n: nat)
    requires m <= n <= |y.events| && Ascending(y.asked)
    ensures Stopped(y, m) <= Stopped(y, n)
  {
    if m < n {
      StopsGrow(y, m, n - 1);
      StopsThen(y, n - 1);
    }
  }

  lemma {:induction false} UnansweredNext(y: Story, n: nat)
    requires n < |y.events| && Ascending(y.asked)
    ensures Unanswered(y, n + 1) <==>
              Stopped(y, n + 1) == Stopped(y, n) && (CancelsAt(y, n) || Unanswered(y, n))
  {
    StopsGrow(y, n, n + 1);
    if Unanswered(y, n + 1) {
      var m :| 0 <= m < n + 1 && CancelsAt(y, m) && Stopped(y, m) == Stopped(y, n + 1);
      StopsGrow(y, m, n);
    }
  }

  lemma {:induction false} RanDownNext(y: Story, n: nat)
    requires n < |y.events|
    ensures RanDown(y, n + 1) <==> RanDown(y, n) || (y.events[n].Timer? && Unanswered(y, n))
  {
  }

  predicate Escalated(c: Setup, t: Turn, unanswered: bool, ranDown: bool) {
    t.control.armed == (c.escalates && unanswered) && t.control.escalated == (c.escalates && ranDown)
  }

  lemma {:induction false} NextEscalated(c: Setup, t: Turn, e: Event, unanswered: bool, ranDown: bool)
    requires Escalated(c, t, unanswered, ranDown)
    ensures var next, cancels := Next(c, t, e), e.Abort? && t.control.cancel.None? && Listening(t);
            Escalated(c, next, |next.talk.stops| == |t.talk.stops| && (cancels || unanswered),
                      ranDown || (e.Timer? && unanswered))
  {
  }

  /** A cancel escalates exactly where it may, and a timer fires while no turn has stopped behind the cancel. */
  lemma {:induction false} EscalatesExactly(y: Story, n: nat)
    requires n <= |y.events| && Ascending(y.asked)
    ensures Escalated(y.c, After(y, n), Unanswered(y, n), RanDown(y, n))
  {
    if n > 0 {
      EscalatesExactly(y, n - 1);
      AfterNext(y, n - 1);
      UnansweredNext(y, n - 1);
      RanDownNext(y, n - 1);
      NextEscalated(y.c, After(y, n - 1), y.events[n - 1], Unanswered(y, n - 1), RanDown(y, n - 1));
    }
  }

  // ---------- What goes over the wire ----------

  /** The frames of a life that has got as far: the handshake, the session, and one cancel at most. */
  function FramesOf(c: Setup, at: At, cancelled: bool): seq<Frame> {
    match at
    case Before(Connecting) => []
    case Before(Handshake) => [Initialize]
    case Before(Recording) => [Initialize]
    case Before(Opening) => [Initialize]
    case _ =>
      [Initialize, if c.resume.None? then NewSession else ResumeSession(c.resume.value)]
      + if cancelled then [CancelSession] else []
  }

  /** The stops among the first `n` messages. */
  function StopsOf(read: seq<Message>, n: nat): seq<Stop>
    requires n <= |read|
  {
    if n == 0 then [] else StopsOf(read, n - 1) + if read[n - 1].Ended? then [read[n - 1].stop] else []
  }

  lemma {:induction false} StopsOfMore(read: seq<Message>, m: Message, n: nat)
    requires n <= |read|
    ensures StopsOf(read + [m], n) == StopsOf(read, n)
  {
    if n > 0 { StopsOfMore(read, m, n - 1); }
  }

  /** The frames are those of where it stands, the opening's where it threw, and the stops are those pulled. */
  predicate Spoken(c: Setup, t: Turn) {
    && (!t.at.Threw? ==> t.frames == FramesOf(c, t.at, t.control.cancel.Some?))
    && (t.at.Threw? ==>
          t.frames == [Initialize] || t.frames == FramesOf(c, t.at, t.control.cancel.Some?))
    && (t.frames == [Initialize] || t.at.Before? ==> t.talk.prompts == [] && t.control.cancel.None?)
    && t.pipe.pulled <= |t.pipe.read| && t.talk.stops == StopsOf(t.pipe.read, t.pipe.pulled)
  }

  lemma {:induction false} NextSpoken(c: Setup, t: Turn, e: Event)
    requires Spoken(c, t)
    ensures Spoken(c, Next(c, t, e))
  {
    if e.Deliver? { StopsOfMore(t.pipe.read, e.message, t.pipe.pulled); }
  }

  /** One handshake, one session, resumed exactly where an id was given, and one cancel exactly where there was
      one; and a turn's stop is the agent's own, in the order read. */
  lemma {:induction false} SpeaksExactly(y: Story, n: nat)
    requires n <= |y.events| && Ascending(y.asked)
    ensures Spoken(y.c, After(y, n))
  {
    if n > 0 {
      SpeaksExactly(y, n - 1);
      AfterNext(y, n - 1);
      NextSpoken(y.c, After(y, n - 1), y.events[n - 1]);
    }
  }

  /** The session given is journaled and announced, and every row that names it says so. */
  predicate Carries(t: Turn, id: string) {
    match t.at
    case Threw(_) => true
    case Before(Journaling(i)) => i == id && |t.filed| == 1
    case Before(Announcing(i)) => i == id && |t.filed| == 2
    case Before(Reviewing) => |t.filed| > 2 && t.filed[2] == SessionOpened(id)
    case Before(_) => false
    case _ => |t.filed| > 2 && t.filed[2] == SessionOpened(id)
  }

  lemma {:induction false} NextCarries(c: Setup, t: Turn, e: Event, id: string)
    requires Carries(t, id)
    ensures Carries(Next(c, t, e), id)
  {
  }

  lemma {:induction false} GivenCarries(c: Setup, t: Turn, id: string)
    requires t.at == Before(Asked) && Recorded(c, t.at, t.filed, t.frames)
    ensures Carries(Next(c, t, SessionGiven(id)), SessionOf(c, id))
  {
  }

  lemma {:induction false} StaysCarried(y: Story, m: nat, n: nat, id: string)
    requires m <= n <= |y.events| && Ascending(y.asked) && Carries(After(y, m), id)
    ensures Carries(After(y, n), id)
  {
    if m < n {
      StaysCarried(y, m, n - 1, id);
      AfterNext(y, n - 1);
      NextCarries(y.c, After(y, n - 1), y.events[n - 1], id);
    }
  }

  /** From the moment the agent gives a session, it, or the one resumed, is what is journaled and announced,
      before anything is sent. */
  lemma {:induction false} AnnouncesTheSession(y: Story, m: nat, n: nat)
    requires m < n <= |y.events| && Ascending(y.asked)
    requires After(y, m).at == Before(Asked) && y.events[m].SessionGiven?
    ensures Carries(After(y, n), SessionOf(y.c, y.events[m].id))
  {
    AfterNext(y, m);
    GivenCarries(y.c, After(y, m), y.events[m].id);
    StaysCarried(y, m + 1, n, SessionOf(y.c, y.events[m].id));
  }

  /** It throws exactly where the versions differ, what is awaited fails, or the review is not independent. */
  lemma {:induction false} ThrowsExactly(c: Setup, t: Turn, e: Event, q: Reason)
    requires !t.at.Threw?
    ensures Next(c, t, e).at == Threw(q) <==>
              || (e == Answered(false) && t.at == Before(Handshake) && q == "handshake-mismatch")
              || (e == Broken(q) && Awaiting(t.at))
              || (e == Step && t.at == Before(Reviewing) && c.review == Some(q))
  {
    if t.at == Resting(Work) && t.talk.stops != [] { assert !Decide(c, t).at.Threw?; }
  }

  /** Nothing is taken in but what is delivered while the gate is open, and what the operator asks for last. */
  lemma {:induction false} TakesInExactly(c: Setup, t: Turn, e: Event)
    ensures Next(c, t, e).pipe.read == t.pipe.read + if e.Deliver? && t.pipe.gateOpen then [e.message] else []
    ensures Next(c, t, e).guidance.asked
         == t.guidance.asked + if e.Interject? && Latest(t.guidance.asked, e.seqNo) then [e.seqNo] else []
    ensures Next(c, t, e).pipe.pulled == t.pipe.pulled + if e.Take? && Ready(t) then 1 else 0
  {
  }
}
