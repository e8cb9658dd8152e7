/** A resumable event stream over one shared log (server.ts, resume.ts). */
module EventLog {
  import opened Options
  import opened Lines
  import JsonText

  // The emitter, the resume cursor and each connection's queue, in spikes/s4-one-port.

  datatype Event = Event(seqNo: nat, data: string)

  datatype Resume = Live | Since(after: nat) | LastEventId(after: nat)

  // ---------- Cursors ----------

  /** A non-negative integer without a sign, a point, an exponent or a leading zero. */
  predicate IsCursor(text: string) {
    && text != [] && (forall k | 0 <= k < |text| :: JsonText.Digit(text[k]))
    && (text[0] == '0' ==> |text| == 1)
  }

  function DigitValue(c: char): nat
    requires JsonText.Digit(c)
  {
    c as int - '0' as int
  }

  function DigitOf(d: nat): (c: char)
    requires d < 10
    ensures JsonText.Digit(c) && DigitValue(c) == d
  {
    (d + '0' as int) as char
  }

  function Value(text: string): nat
    requires forall k | 0 <= k < |text| :: JsonText.Digit(text[k])
  {
    if text == [] then 0 else 10 * Value(Init(text)) + DigitValue(Last(text))
  }

  function ParseCursor(text: Option<string>): Option<nat> {
    if text.Some? && IsCursor(text.value) then Some(Value(text.value)) else None
  }

  function Print(n: nat): (text: string)
    ensures text != [] && forall k | 0 <= k < |text| :: JsonText.Digit(text[k])
  {
    (if n < 10 then [] else Print(n / 10)) + [DigitOf(n % 10)]
  }

  /** The id an event is sent with is a cursor, and reads back as its seq. */
  lemma {:induction false} CursorReadsBack(n: nat)
    ensures IsCursor(Print(n)) && ParseCursor(Some(Print(n))) == Some(n)
    ensures Print(n)[0] == '0' ==> n == 0
  {
    var text := Print(n);
    if n >= 10 {
      CursorReadsBack(n / 10);
      assert text == Print(n / 10) + [DigitOf(n % 10)];
      assert Init(text) == Print(n / 10) && Last(text) == DigitOf(n % 10);
      assert text[0] == Print(n / 10)[0];
    } else {
      assert text == [DigitOf(n)] && Init(text) == [] && Last(text) == DigitOf(n);
      assert Value(Init(text)) == 0;
    }
  }

  /** The cursors are exactly the ids: a text is read as a seq where it is the id that seq is sent with. */
  lemma {:induction false} CursorsAreTheIds(text: string, n: nat)
    ensures ParseCursor(Some(text)) == Some(n) <==> text == Print(n)
    ensures ParseCursor(None) == None
  {
    CursorReadsBack(n);
    if IsCursor(text) { ValuePrints(text); }
  }

  lemma {:induction false} ValuePrints(text: string)
    requires IsCursor(text)
    ensures Print(Value(text)) == text
    ensures text[0] != '0' ==> Value(text) > 0
  {
    var front, d := Init(text), DigitValue(Last(text));
    assert text == front + [Last(text)] && DigitOf(d) == Last(text);
    if front != [] {
      assert front[0] == text[0];
      ValuePrints(front);
      assert Value(text) == 10 * Value(front) + d && Value(text) / 10 == Value(front) && Value(text) % 10 == d;
    } else {
      assert Value(text) == d;
    }
  }

  function ResumeFrom(since: Option<string>, lastEventId: Option<string>): Resume {
    var s, h := ParseCursor(since), ParseCursor(lastEventId);
    if h.Some? && (s.None? || h.value >= s.value) then LastEventId(h.value)
    else if s.Some? then Since(s.value)
    else Live
  }

  /** The cursor used is the greater of those that can be read; with neither the stream is live. */
  lemma {:induction false} ResumesFromTheGreater(since: Option<string>, lastEventId: Option<string>)
    ensures var r, s, h := ResumeFrom(since, lastEventId), ParseCursor(since), ParseCursor(lastEventId);
            && (r.Live? <==> s.None? && h.None?)
            && (!r.Live? ==> Some(r.after) == s || Some(r.after) == h)
            && (s.Some? ==> !r.Live? && r.after >= s.value)
            && (h.Some? ==> !r.Live? && r.after >= h.value)
  {
  }

  // ---------- The log ----------

  predicate Ascending(log: seq<Event>) {
    forall j, k | 0 <= j < k < |log| :: log[j].seqNo < log[k].seqNo
  }

  predicate Orderly(log: seq<Event>, nextSeq: nat) {
    Ascending(log) && forall k | 0 <= k < |log| :: log[k].seqNo < nextSeq
  }

  function EventsAfter(log: seq<Event>, after: nat): seq<Event> {
    if log == [] then []
    else EventsAfter(Init(log), after) + if Last(log).seqNo > after then [Last(log)] else []
  }

  /** How many entries are at or before the cursor. */
  function Point(log: seq<Event>, after: nat): (n: nat)
    ensures n <= |log|
  {
    if log == [] then 0
    else if Last(log).seqNo <= after then |log|
    else Point(Init(log), after)
  }

  lemma {:induction false} TailGrows(log: seq<Event>, n: nat)
    requires log != [] && n <= |Init(log)|
    ensures log[n..] == Init(log)[n..] + [Last(log)]
  {
  }

  lemma {:induction false} NoneAfter(log: seq<Event>, after: nat)
    requires forall m | 0 <= m < |log| :: log[m].seqNo <= after
    ensures EventsAfter(log, after) == []
  {
    if log != [] { NoneAfter(Init(log), after); }
  }

  lemma {:induction false} AfterIsSuffix(log: seq<Event>, after: nat)
    requires Ascending(log)
    ensures EventsAfter(log, after) == log[Point(log, after)..]
    ensures forall k | 0 <= k < |log| :: log[k].seqNo > after <==> Point(log, after) <= k
  {
    if log != [] {
      AfterIsSuffix(Init(log), after);
      if Last(log).seqNo > after {
        TailGrows(log, Point(Init(log), after));
      } else {
        forall k | 0 <= k < |log| ensures log[k].seqNo <= after { assert log[k].seqNo <= Last(log).seqNo; }
        NoneAfter(log, after);
      }
    }
  }

  // ---------- Connections ----------

  /** A stream: where it resumed, the length of the log then, what waits, what is being written, and
      what has reached the client. */
  datatype Conn = Conn(resume: Resume, from: nat, limit: nat, queue: seq<Event>, inFlight: Option<Event>,
                       received: seq<Event>, listening: bool)

  function Backlog(log: seq<Event>, r: Resume): seq<Event> {
    if r.Live? then [] else EventsAfter(log, r.after)
  }

  function Flow(c: Conn): seq<Event> {
    c.received + (if c.inFlight.Some? then [c.inFlight.value] else []) + c.queue
  }

  /** What a stream owes its client by the time the log has `n` entries. */
  function Due(log: seq<Event>, c: Conn, n: nat): seq<Event>
    requires c.from <= n <= |log|
  {
    Backlog(log[..c.from], c.resume) + log[c.from..n]
  }

  /** Received, being written, and waiting: together, in order, exactly what is due; for a stream
      that is closed, what was due when it closed. */
  ghost predicate Holds(log: seq<Event>, c: Conn) {
    && c.from <= |log|
    && (c.listening ==> Flow(c) == Due(log, c, |log|))
    && exists n: nat :: c.from <= n <= |log| && Flow(c) == Due(log, c, n)
  }

  function Opened(log: seq<Event>, r: Resume, limit: nat): Conn {
    Conn(r, |log|, limit, Backlog(log, r), None, [], true)
  }

  function Hear(c: Conn, e: Event): Conn { if c.listening then c.(queue := c.queue + [e]) else c }

  /** The loop takes the next event to write, unless the stream is over. */
  function Shift(c: Conn): Conn {
    if c.listening && c.inFlight.None? && c.queue != []
    then c.(inFlight := Some(c.queue[0]), queue := c.queue[1..])
    else c
  }

  /** The write arrived; a stream with a limit ends when it has sent that many. */
  function Arrive(c: Conn): Conn {
    if !c.listening || c.inFlight.None? then c
    else
      var received := c.received + [c.inFlight.value];
      c.(received := received, inFlight := None, listening := c.limit == 0 || |received| < c.limit)
  }

  /** The socket is gone: whatever waits or is being written never arrives. */
  function Severed(c: Conn): Conn { c.(listening := false) }

  lemma {:induction false} OpenHolds(log: seq<Event>, r: Resume, limit: nat)
    ensures Holds(log, Opened(log, r, limit))
  {
    assert log[..|log|] == log;
    assert Flow(Opened(log, r, limit)) == Due(log, Opened(log, r, limit), |log|);
  }

  lemma {:induction false} HearHolds(log: seq<Event>, c: Conn, e: Event)
    requires Holds(log, c)
    ensures Holds(log + [e], Hear(c, e))
  {
    var more := log + [e];
    assert more[..c.from] == log[..c.from];
    var n: nat :| c.from <= n <= |log| && Flow(c) == Due(log, c, n);
    assert more[c.from..n] == log[c.from..n];
    if c.listening {
      assert more[c.from..|more|] == log[c.from..|log|] + [e];
      assert Flow(Hear(c, e)) == Flow(c) + [e];
      assert Flow(Hear(c, e)) == Due(more, Hear(c, e), |more|);
    } else {
      assert Flow(c) == Due(more, c, n);
    }
  }

  lemma {:induction false} MoveHolds(log: seq<Event>, c: Conn, next: Conn)
    requires Holds(log, c) && next.resume == c.resume && next.from == c.from
    requires Flow(next) == Flow(c) && (next.listening ==> c.listening)
    ensures Holds(log, next)
  {
    var n: nat :| c.from <= n <= |log| && Flow(c) == Due(log, c, n);
    assert Flow(next) == Due(log, next, n);
  }

  lemma {:induction false} WriteKeepsFlow(c: Conn)
    ensures Flow(Shift(c)) == Flow(c) && Flow(Arrive(c)) == Flow(c)
  {
    if c.queue != [] { assert c.queue == [c.queue[0]] + c.queue[1..]; }
  }

  /** The stream's loop, `n` times round. */
  function Pumped(c: Conn, n: nat): Conn { if n == 0 then c else Arrive(Shift(Pumped(c, n - 1))) }

  /** Each time round the next event that waits reaches the client, in order, and a stream with a limit is over with
      the event that reaches it. */
  lemma {:induction false} PumpsInOrder(c: Conn, n: nat)
    requires c.listening && c.inFlight.None? && n <= |c.queue|
    requires c.limit == 0 || |c.received| < c.limit
    requires c.limit == 0 || |c.received| + n <= c.limit
    ensures Pumped(c, n) == c.(received := c.received + c.queue[..n], queue := c.queue[n..],
                               listening := c.limit == 0 || |c.received| + n < c.limit)
  {
    if n > 0 {
      PumpsInOrder(c, n - 1);
      assert c.queue[..n] == c.queue[..n - 1] + [c.queue[n - 1]];
      assert c.queue[n - 1..][0] == c.queue[n - 1] && c.queue[n - 1..][1..] == c.queue[n..];
      assert (c.received + c.queue[..n - 1]) + [c.queue[n - 1]] == c.received + c.queue[..n];
    }
  }

  /** A stream that is over, and a severed one is, neither hears, nor takes, nor delivers anything more. */
  lemma {:induction false} OverIsOver(c: Conn, e: Event)
    ensures var over := Severed(c);
            && over == c.(listening := false)
            && Hear(over, e) == over && Shift(over) == over && Arrive(over) == over
  {
  }

  // ---------- The server ----------

  class Server {
    var log: seq<Event>
    var nextSeq: nat
    var conns: seq<Conn>

    ghost predicate Valid()
      reads this
    {
      && Orderly(log, nextSeq)
      && forall k | 0 <= k < |conns| :: Holds(log, conns[k])
    }

    constructor ()
      ensures Valid() && log == [] && conns == [] && nextSeq == 1
    {
      log, nextSeq, conns := [], 1, [];
    }

    /** One tick of the emitter, after burning a seq or not. */
    method Tick(burned: bool, data: string)
      requires Valid()
      modifies this
      ensures Valid() && nextSeq == old(nextSeq) + (if burned then 2 else 1)
      ensures log == old(log) + [Event(nextSeq - 1, data)]
      ensures |conns| == |old(conns)| && forall k | 0 <= k < |conns| :: conns[k] == Hear(old(conns[k]), Last(log))
    {
      if burned { nextSeq := nextSeq + 1; }
      var event := Event(nextSeq, data);
      nextSeq := nextSeq + 1;
      ghost var before := log;
      log := log + [event];
      for k := 0 to |conns|
        invariant |conns| == |old(conns)| && log == before + [event] && nextSeq == event.seqNo + 1
        invariant forall m | 0 <= m < k :: conns[m] == Hear(old(conns[m]), event)
        invariant forall m | k <= m < |conns| :: conns[m] == old(conns[m])
      {
        conns := conns[k := Hear(conns[k], event)];
      }
      forall k | 0 <= k < |conns| ensures Holds(log, conns[k]) { HearHolds(before, old(conns[k]), event); }
    }

    method Connect(since: Option<string>, lastEventId: Option<string>, limit: nat) returns (id: nat)
      requires Valid()
      modifies this`conns
      ensures Valid() && id == |old(conns)|
      ensures conns == old(conns) + [Opened(log, ResumeFrom(since, lastEventId), limit)]
    {
      id := |conns|;
      var resume := ResumeFrom(since, lastEventId);
      OpenHolds(log, resume, limit);
      conns := conns + [Opened(log, resume, limit)];
    }

    /** The stream's loop takes the next event off its queue... */
    method Take(id: nat)
      requires Valid() && id < |conns|
      modifies this`conns
      ensures Valid() && conns == old(conns)[id := Shift(old(conns)[id])]
    {
      WriteKeepsFlow(conns[id]);
      MoveHolds(log, conns[id], Shift(conns[id]));
      conns := conns[id := Shift(conns[id])];
    }

    /** ...and its write reaches the client. */
    method Write(id: nat)
      requires Valid() && id < |conns|
      modifies this`conns
      ensures Valid() && conns == old(conns)[id := Arrive(old(conns)[id])]
    {
      WriteKeepsFlow(conns[id]);
      MoveHolds(log, conns[id], Arrive(conns[id]));
      conns := conns[id := Arrive(conns[id])];
    }

    method Drop(id: nat)
      requires Valid() && id < |conns|
      modifies this`conns
      ensures Valid() && conns == old(conns)[id := Severed(old(conns)[id])]
    {
      MoveHolds(log, conns[id], Severed(conns[id]));
      conns := conns[id := Severed(conns[id])];
    }
  }

  // ---------- What is due ----------

  /** Where in the log a stream starts. */
  function Origin(log: seq<Event>, c: Conn): (n: nat)
    ensures c.from <= |log| ==> n <= |log|
  {
    if c.resume.Live? then c.from else Point(log, c.resume.after)
  }

  lemma {:induction false} AfterAppend(a: seq<Event>, b: seq<Event>, after: nat)
    ensures EventsAfter(a + b, after) == EventsAfter(a, after) + EventsAfter(b, after)
    decreases |b|
  {
    if b == [] {
      assert a + b == a;
    } else {
      AfterAppend(a, Init(b), after);
      assert Init(a + b) == a + Init(b) && Last(a + b) == Last(b);
    }
  }

  lemma {:induction false} AfterIsShorter(log: seq<Event>, after: nat)
    ensures |EventsAfter(log, after)| <= |log|
  {
    if log != [] { AfterIsShorter(Init(log), after); }
  }

  lemma {:induction false} PastInit(log: seq<Event>, after: nat)
    requires log != [] && forall m | 0 <= m < |log| :: log[m].seqNo > after
    ensures Last(log).seqNo > after && forall m | 0 <= m < |Init(log)| :: Init(log)[m].seqNo > after
  {
  }

  lemma {:induction false} PastSlice(log: seq<Event>, from: nat, n: nat, after: nat)
    requires from <= n <= |log|
    ensures (forall m | from <= m < n :: log[m].seqNo > after)
            <==> forall m | 0 <= m < n - from :: log[from..n][m].seqNo > after
  {
    assert forall m | from <= m < n :: log[m] == log[from..n][m - from];
  }

  lemma {:induction false} AllAfter(log: seq<Event>, after: nat)
    requires forall m | 0 <= m < |log| :: log[m].seqNo > after
    ensures EventsAfter(log, after) == log
  {
    if log != [] {
      PastInit(log, after);
      AllAfter(Init(log), after);
      InitLast(log);
    }
  }

  lemma {:induction false} SieveIsAll(log: seq<Event>, after: nat)
    ensures EventsAfter(log, after) == log <==> forall m | 0 <= m < |log| :: log[m].seqNo > after
  {
    if EventsAfter(log, after) == log { NoneDropped(log, after); }
    if forall m | 0 <= m < |log| :: log[m].seqNo > after { AllAfter(log, after); }
  }

  lemma {:induction false} NoneDropped(log: seq<Event>, after: nat)
    requires |EventsAfter(log, after)| == |log|
    ensures forall m | 0 <= m < |log| :: log[m].seqNo > after
  {
    if log != [] {
      AfterIsShorter(Init(log), after);
      NoneDropped(Init(log), after);
      assert forall m | 0 <= m < |log| - 1 :: log[m] == Init(log)[m];
    }
  }

  lemma {:induction false} Cancel(a: seq<Event>, b: seq<Event>, c: seq<Event>)
    ensures a + b == a + c <==> b == c
  {
    assert b == (a + b)[|a|..] && c == (a + c)[|a|..];
  }

  /** What is due to a stream with a cursor is the events past it, exactly where everything logged
      since it connected is past it. */
  lemma {:induction false} DueExactly(log: seq<Event>, c: Conn, n: nat)
    requires c.from <= n <= |log| && !c.resume.Live?
    ensures Due(log, c, n) == EventsAfter(log[..n], c.resume.after)
            <==> forall m | c.from <= m < n :: log[m].seqNo > c.resume.after
  {
    var before, since, after := log[..c.from], log[c.from..n], c.resume.after;
    assert log[..n] == before + since;
    AfterAppend(before, since, after);
    SieveIsAll(since, after);
    Cancel(EventsAfter(before, after), since, EventsAfter(since, after));
    PastSlice(log, c.from, n, after);
  }

  /** The cursor was issued before the stream opened: whatever is logged from then on is past it. */
  predicate Issued(log: seq<Event>, nextSeq: nat, c: Conn) {
    c.resume.Live? || (c.resume.after < nextSeq && forall m | c.from <= m < |log| :: log[m].seqNo > c.resume.after)
  }

  /** `s` is the stretch of the log that starts at `p`. */
  predicate IsStretch(log: seq<Event>, p: nat, s: seq<Event>) {
    p + |s| <= |log| && s == log[p..p + |s|]
  }

  predicate CaughtUp(c: Conn) { c.listening && c.inFlight.None? && c.queue == [] }

  lemma {:induction false} DueIsStretch(log: seq<Event>, nextSeq: nat, c: Conn, n: nat)
    requires Ascending(log) && c.from <= n <= |log| && Issued(log, nextSeq, c)
    ensures Origin(log, c) <= c.from && Due(log, c, n) == log[Origin(log, c)..n]
  {
    if !c.resume.Live? {
      DueExactly(log, c, n);
      AfterIsSuffix(log[..n], c.resume.after);
      AfterIsSuffix(log, c.resume.after);
      PointOfPrefix(log, c.resume.after, n);
      if c.from < |log| { assert log[c.from].seqNo > c.resume.after; }
    }
  }

  lemma {:induction false} PointOfPrefix(log: seq<Event>, after: nat, n: nat)
    requires n <= |log| && forall m | n <= m < |log| :: log[m].seqNo > after
    ensures Point(log[..n], after) == Point(log, after)
    decreases |log|
  {
    if n < |log| {
      PointOfPrefix(Init(log), after, n);
      assert Init(log)[..n] == log[..n];
    } else {
      assert log[..n] == log;
    }
  }

  lemma {:induction false} ReceivedIsStretch(log: seq<Event>, nextSeq: nat, c: Conn)
    requires Ascending(log) && Holds(log, c) && Issued(log, nextSeq, c)
    ensures IsStretch(log, Origin(log, c), c.received)
    ensures CaughtUp(c) ==> Origin(log, c) + |c.received| == |log|
  {
    var n: nat :| c.from <= n <= |log| && Flow(c) == Due(log, c, n);
    DueIsStretch(log, nextSeq, c, n);
    FrontIsStretch(log, Origin(log, c), n, Flow(c), c.received);
    if CaughtUp(c) {
      DueIsStretch(log, nextSeq, c, |log|);
      assert Flow(c) == c.received;
    }
  }

  lemma {:induction false} FrontIsStretch(log: seq<Event>, p: nat, n: nat, flow: seq<Event>, front: seq<Event>)
    requires p <= n <= |log| && flow == log[p..n] && front <= flow
    ensures IsStretch(log, p, front)
  {
    assert front == flow[..|front|];
  }

  // ---------- What a client sees ----------

  /** A client: the cursors its stream was asked with, where in the log it follows from, what its
      earlier streams have delivered, and its stream. */
  datatype Client = Client(since: Option<string>, lastEventId: Option<string>, start: nat, seen: seq<Event>, conn: Conn)

  datatype World = World(log: seq<Event>, nextSeq: nat, client: Client)

  /** A reconnect is the browser's, to the same URL; a reload opens a new one. Both end the stream there
      was, whether or not the server has noticed. */
  datatype Step = Tick(burned: bool, data: string) | Take | Write | Drop | Reconnect(limit: nat) | Reload(limit: nat)

  function View(c: Client): seq<Event> { c.seen + c.conn.received }

  function Joins(log: seq<Event>, nextSeq: nat, since: Option<string>, lastEventId: Option<string>, limit: nat): World {
    var conn := Opened(log, ResumeFrom(since, lastEventId), limit);
    World(log, nextSeq, Client(since, lastEventId, Origin(log, conn), [], conn))
  }

  /** The client's next stream. It follows from where it did, except that one that has received
      nothing follows from where this stream starts. */
  function Again(w: World, since: Option<string>, lastEventId: Option<string>, limit: nat): World {
    var conn, view := Opened(w.log, ResumeFrom(since, lastEventId), limit), View(w.client);
    w.(client := Client(since, lastEventId, if view == [] then Origin(w.log, conn) else w.client.start, view, conn))
  }

  /** The last event id the browser holds. */
  function Header(c: Client): Option<string> {
    if c.conn.received == [] then c.lastEventId else Some(Print(Last(c.conn.received).seqNo))
  }

  /** A reloaded page opens a new stream, which sends no header: for what follows the last event it has, or,
      while there is none, at the URL it had. */
  function ReloadedSince(c: Client): Option<string> {
    if View(c) == [] then c.since else Some(Print(Last(View(c)).seqNo))
  }

  function Next(w: World, step: Step): World {
    match step
    case Tick(burned, data) =>
      var event := Event(w.nextSeq + (if burned then 1 else 0), data);
      World(w.log + [event], event.seqNo + 1, w.client.(conn := Hear(w.client.conn, event)))
    case Take => w.(client := w.client.(conn := Shift(w.client.conn)))
    case Write => w.(client := w.client.(conn := Arrive(w.client.conn)))
    case Drop => w.(client := w.client.(conn := Severed(w.client.conn)))
    case Reconnect(limit) => Again(w, w.client.since, Header(w.client), limit)
    case Reload(limit) => Again(w, ReloadedSince(w.client), None, limit)
  }

  function Run(w: World, steps: seq<Step>): World {
    if steps == [] then w else Next(Run(w, Init(steps)), Last(steps))
  }

  predicate AsksFor(r: Resume, after: nat) { !r.Live? && r.after == after }

  /** What every step keeps: a stream starts where the view of the streams before it ends, and asks
      for what follows the last event of that view. */
  ghost predicate Tracks(w: World) {
    var c := w.client;
    && Orderly(w.log, w.nextSeq) && Holds(w.log, c.conn) && Issued(w.log, w.nextSeq, c.conn)
    && c.conn.resume == ResumeFrom(c.since, c.lastEventId)
    && IsStretch(w.log, c.start, c.seen) && Origin(w.log, c.conn) == c.start + |c.seen|
    && (c.seen != [] ==> AsksFor(c.conn.resume, Last(c.seen).seqNo))
  }

  lemma {:induction false} JoinTracks(w: World, since: Option<string>, lastEventId: Option<string>, limit: nat)
    requires Orderly(w.log, w.nextSeq) && w == Joins(w.log, w.nextSeq, since, lastEventId, limit)
    requires w.client.conn.resume.Live? || w.client.conn.resume.after < w.nextSeq
    ensures Tracks(w)
  {
    OpenHolds(w.log, ResumeFrom(since, lastEventId), limit);
  }

  lemma {:induction false} LogGrows(log: seq<Event>, nextSeq: nat, e: Event, p: nat, s: seq<Event>)
    requires Orderly(log, nextSeq) && nextSeq <= e.seqNo && IsStretch(log, p, s)
    ensures Orderly(log + [e], e.seqNo + 1) && IsStretch(log + [e], p, s)
  {
    assert (log + [e])[p..p + |s|] == log[p..p + |s|];
  }

  lemma {:induction false} PointStays(log: seq<Event>, e: Event, after: nat)
    requires e.seqNo > after
    ensures Point(log + [e], after) == Point(log, after)
  {
    assert Init(log + [e]) == log;
  }

  lemma {:induction false} IssuedStays(log: seq<Event>, nextSeq: nat, c: Conn, e: Event)
    requires Issued(log, nextSeq, c) && nextSeq <= e.seqNo
    ensures Issued(log + [e], e.seqNo + 1, Hear(c, e)) && Origin(log + [e], Hear(c, e)) == Origin(log, c)
  {
    if !c.resume.Live? { PointStays(log, e, c.resume.after); }
  }

  lemma {:induction false} TickTracks(w: World, burned: bool, data: string)
    requires Tracks(w)
    ensures Tracks(Next(w, Tick(burned, data)))
  {
    var e := Event(w.nextSeq + (if burned then 1 else 0), data);
    HearHolds(w.log, w.client.conn, e);
    IssuedStays(w.log, w.nextSeq, w.client.conn, e);
    LogGrows(w.log, w.nextSeq, e, w.client.start, w.client.seen);
  }

  lemma {:induction false} MoveTracks(w: World, conn: Conn)
    requires Tracks(w) && conn.resume == w.client.conn.resume && conn.from == w.client.conn.from
    requires Flow(conn) == Flow(w.client.conn) && (conn.listening ==> w.client.conn.listening)
    ensures Tracks(w.(client := w.client.(conn := conn)))
  {
    MoveHolds(w.log, w.client.conn, conn);
  }

  lemma {:induction false} PointAt(log: seq<Event>, k: nat)
    requires Ascending(log) && k < |log|
    ensures Point(log, log[k].seqNo) == k + 1
  {
    var n := Point(log, log[k].seqNo);
    AfterIsSuffix(log, log[k].seqNo);
    assert log[k].seqNo > log[k].seqNo <==> n <= k;
    if k + 1 < |log| { assert log[k + 1].seqNo > log[k].seqNo <==> n <= k + 1; }
  }

  lemma {:induction false} StretchAppend(log: seq<Event>, p: nat, a: seq<Event>, b: seq<Event>)
    requires IsStretch(log, p, a) && IsStretch(log, p + |a|, b)
    ensures IsStretch(log, p, a + b)
  {
  }

  lemma {:induction false} ViewIsStretch(w: World)
    requires Tracks(w)
    ensures IsStretch(w.log, w.client.start, View(w.client))
    ensures CaughtUp(w.client.conn) ==> w.client.start + |View(w.client)| == |w.log|
  {
    ReceivedIsStretch(w.log, w.nextSeq, w.client.conn);
    StretchAppend(w.log, w.client.start, w.client.seen, w.client.conn.received);
  }

  lemma {:induction false} ReceivedIsPast(w: World)
    requires Tracks(w) && w.client.conn.received != [] && !w.client.conn.resume.Live?
    ensures Last(w.client.conn.received).seqNo > w.client.conn.resume.after
  {
    var c := w.client.conn;
    ReceivedIsStretch(w.log, w.nextSeq, c);
    AfterIsSuffix(w.log, c.resume.after);
    assert Last(c.received) == w.log[Origin(w.log, c) + |c.received| - 1];
  }

  /** A client that has received something asks for what follows the last of it, whichever way. */
  lemma {:induction false} AsksForTheRest(w: World)
    requires Tracks(w) && View(w.client) != []
    ensures AsksFor(ResumeFrom(w.client.since, Header(w.client)), Last(View(w.client)).seqNo)
    ensures AsksFor(ResumeFrom(ReloadedSince(w.client), None), Last(View(w.client)).seqNo)
  {
    var c := w.client;
    CursorReadsBack(Last(View(c)).seqNo);
    if c.conn.received == [] {
      assert View(c) == c.seen;
    } else {
      assert Last(View(c)) == Last(c.conn.received);
      if !c.conn.resume.Live? { ReceivedIsPast(w); }
      ResumesFromTheGreater(c.since, c.lastEventId);
    }
  }

  lemma {:induction false} AgainTracks(w: World, since: Option<string>, lastEventId: Option<string>, limit: nat)
    requires Tracks(w)
    requires var r := ResumeFrom(since, lastEventId);
             if View(w.client) == [] then r.Live? || r.after < w.nextSeq
             else AsksFor(r, Last(View(w.client)).seqNo)
    ensures Tracks(Again(w, since, lastEventId, limit))
  {
    OpenHolds(w.log, ResumeFrom(since, lastEventId), limit);
    ViewIsStretch(w);
    var view, p := View(w.client), w.client.start;
    if view != [] {
      assert Last(view) == w.log[p + |view| - 1];
      PointAt(w.log, p + |view| - 1);
    }
  }

  lemma {:induction false} StepTracks(w: World, step: Step)
    requires Tracks(w)
    ensures Tracks(Next(w, step))
  {
    WriteKeepsFlow(w.client.conn);
    if View(w.client) != [] { AsksForTheRest(w); }
    ResumesFromTheGreater(w.client.since, w.client.lastEventId);
    match step
    case Tick(burned, data) => TickTracks(w, burned, data);
    case Take => MoveTracks(w, Shift(w.client.conn));
    case Write => MoveTracks(w, Arrive(w.client.conn));
    case Drop => MoveTracks(w, Severed(w.client.conn));
    case Reconnect(limit) => AgainTracks(w, w.client.since, Header(w.client), limit);
    case Reload(limit) => AgainTracks(w, ReloadedSince(w.client), None, limit);
  }

  lemma {:induction false} RunTracks(w: World, steps: seq<Step>)
    requires Tracks(w)
    ensures Tracks(Run(w, steps))
  {
    if steps != [] {
      RunTracks(w, Init(steps));
      StepTracks(Run(w, Init(steps)), Last(steps));
    }
  }

  // ---------- Over every run ----------

  /** Over every run of ticks, writes, drops, reconnects and reloads, seqs burned or not: what a client
      has received, put together, is one uninterrupted stretch of the log from where it follows:
      nothing lost, nothing twice, nothing out of order. Only the cursor it came with must have been
      issued. */
  lemma {:induction false} ClientSeesOneStretch(log: seq<Event>, nextSeq: nat, since: Option<string>,
      lastEventId: Option<string>, limit: nat, steps: seq<Step>)
    requires Orderly(log, nextSeq)
    requires var r := ResumeFrom(since, lastEventId); r.Live? || r.after < nextSeq
    ensures var w := Run(Joins(log, nextSeq, since, lastEventId, limit), steps);
            && IsStretch(w.log, w.client.start, View(w.client))
            && (CaughtUp(w.client.conn) ==> w.client.start + |View(w.client)| == |w.log|)
  {
    var w := Joins(log, nextSeq, since, lastEventId, limit);
    JoinTracks(w, since, lastEventId, limit);
    RunTracks(w, steps);
    ViewIsStretch(Run(w, steps));
  }

  /** A client that came with a cursor follows from that cursor. */
  predicate FollowsFrom(w: World, after: nat) {
    && after < w.nextSeq && w.client.start == Point(w.log, after)
    && (w.client.seen == [] ==> AsksFor(w.client.conn.resume, after))
  }

  /** A page that has received nothing is reloaded, and its cursor was in a header, which is not sent again. */
  predicate Forgets(w: World, step: Step, after: nat) {
    step.Reload? && View(w.client) == [] && ParseCursor(w.client.since) != Some(after)
  }

  predicate NeverForgets(w: World, steps: seq<Step>, after: nat) {
    steps == [] || (NeverForgets(w, Init(steps), after) && !Forgets(Run(w, Init(steps)), Last(steps), after))
  }

  lemma {:induction false} StepFollowsFrom(w: World, step: Step, after: nat)
    requires Tracks(w) && FollowsFrom(w, after) && !Forgets(w, step, after)
    ensures FollowsFrom(Next(w, step), after)
  {
    match step
    case Tick(burned, data) =>
      var e := Event(w.nextSeq + (if burned then 1 else 0), data);
      PointStays(w.log, e, after);
    case _ => if View(w.client) != [] { AsksForTheRest(w); }
  }

  lemma {:induction false} RunFollowsFrom(w: World, steps: seq<Step>, after: nat)
    requires Tracks(w) && FollowsFrom(w, after) && NeverForgets(w, steps, after)
    ensures FollowsFrom(Run(w, steps), after)
  {
    if steps != [] {
      RunFollowsFrom(w, Init(steps), after);
      RunTracks(w, Init(steps));
      StepFollowsFrom(Run(w, Init(steps)), Last(steps), after);
    }
  }

  /** A cursor in the URL is never forgotten. */
  lemma {:induction false} UrlIsKept(w: World, steps: seq<Step>, after: nat)
    requires w.client.seen == [] ==> ParseCursor(w.client.since) == Some(after)
    ensures NeverForgets(w, steps, after)
    ensures Run(w, steps).client.seen == [] ==> ParseCursor(Run(w, steps).client.since) == Some(after)
  {
    if steps != [] {
      UrlIsKept(w, Init(steps), after);
      UrlStays(Run(w, Init(steps)), Last(steps), after);
    }
  }

  lemma {:induction false} UrlStays(w: World, step: Step, after: nat)
    requires w.client.seen == [] ==> ParseCursor(w.client.since) == Some(after)
    ensures !Forgets(w, step, after)
    ensures var next := Next(w, step).client; next.seen == [] ==> ParseCursor(next.since) == Some(after)
  {
  }

  /** The events past the cursor, from the first of them, in order: all of them once caught up. */
  predicate SeesFrom(w: World, after: nat) {
    && View(w.client) <= EventsAfter(w.log, after)
    && (CaughtUp(w.client.conn) ==> View(w.client) == EventsAfter(w.log, after))
  }

  lemma {:induction false} IssuedIsHonoured(w: World, steps: seq<Step>, after: nat)
    requires Tracks(w) && FollowsFrom(w, after) && NeverForgets(w, steps, after)
    ensures SeesFrom(Run(w, steps), after)
  {
    RunFollowsFrom(w, steps, after);
    RunTracks(w, steps);
    ViewIsStretch(Run(w, steps));
    AfterIsSuffix(Run(w, steps).log, after);
  }

  /** With a cursor past anything issued the next event, though not past the cursor, is sent. */
  lemma {:induction false} UnissuedIsNot(log: seq<Event>, nextSeq: nat, since: Option<string>,
      lastEventId: Option<string>, limit: nat)
    requires Orderly(log, nextSeq)
    requires var r := ResumeFrom(since, lastEventId); !r.Live? && r.after >= nextSeq
    ensures !SeesFrom(Run(Joins(log, nextSeq, since, lastEventId, limit), [Tick(false, ""), Take, Write]),
                      ResumeFrom(since, lastEventId).after)
  {
    var w, e := Joins(log, nextSeq, since, lastEventId, limit), Event(nextSeq, "");
    var after := ResumeFrom(since, lastEventId).after;
    NoneAfter(log, after);
    NoneAfter(log + [e], after);
    ThreeSteps(w, Tick(false, ""), Take, Write);
    FirstEventArrives(w, e);
  }

  lemma {:induction false} FirstEventArrives(w: World, e: Event)
    requires w.client.conn.listening && w.client.conn.inFlight.None? && w.client.conn.queue == []
    requires View(w.client) == [] && e == Event(w.nextSeq, "")
    ensures var last := Next(Next(Next(w, Tick(false, "")), Take), Write);
            last.log == w.log + [e] && View(last.client) == [e]
  {
    assert Next(w, Tick(false, "")).client.conn.queue == [] + [e];
  }

  lemma {:induction false} ThreeSteps(w: World, a: Step, b: Step, c: Step)
    ensures Run(w, [a, b, c]) == Next(Next(Next(w, a), b), c)
  {
    assert Init([a]) == [] && Init([a, b]) == [a] && Init([a, b, c]) == [a, b];
    assert Run(w, [a]) == Next(w, a);
    assert Run(w, [a, b]) == Next(Run(w, [a]), b);
  }

  lemma {:induction false} NoReload(w: World, after: nat)
    ensures NeverForgets(w, [Tick(false, ""), Take, Write], after)
  {
    ForgetsNot(w, [], Tick(false, ""), after);
    ForgetsNot(w, [] + [Tick(false, "")], Take, after);
    ForgetsNot(w, [] + [Tick(false, "")] + [Take], Write, after);
    assert [] + [Tick(false, "")] + [Take] + [Write] == [Tick(false, ""), Take, Write];
  }

  lemma {:induction false} ForgetsNot(w: World, steps: seq<Step>, step: Step, after: nat)
    requires NeverForgets(w, steps, after) && !step.Reload?
    ensures NeverForgets(w, steps + [step], after)
  {
    assert Init(steps + [step]) == steps;
  }

  /** In every continuation in which the cursor is not forgotten, a client sees the events past it and no
      others exactly where it had been issued when the client first connected; a cursor in the URL is
      never forgotten. */
  lemma {:induction false} HonouredExactlyWhereIssued(log: seq<Event>, nextSeq: nat, since: Option<string>,
      lastEventId: Option<string>, limit: nat)
    requires Orderly(log, nextSeq) && !ResumeFrom(since, lastEventId).Live?
    ensures var w, after := Joins(log, nextSeq, since, lastEventId, limit), ResumeFrom(since, lastEventId).after;
            && ((forall steps | NeverForgets(w, steps, after) :: SeesFrom(Run(w, steps), after)) <==> after < nextSeq)
            && (ParseCursor(since) == Some(after) ==> forall steps :: NeverForgets(w, steps, after))
  {
    var w, after := Joins(log, nextSeq, since, lastEventId, limit), ResumeFrom(since, lastEventId).after;
    if ParseCursor(since) == Some(after) {
      forall steps ensures NeverForgets(w, steps, after) { UrlIsKept(w, steps, after); }
    }
    if after < nextSeq {
      JoinTracks(w, since, lastEventId, limit);
      forall steps | NeverForgets(w, steps, after) ensures SeesFrom(Run(w, steps), after) {
        IssuedIsHonoured(w, steps, after);
      }
    } else {
      var steps := [Tick(false, ""), Take, Write];
      NoReload(w, after);
      UnissuedIsNot(log, nextSeq, since, lastEventId, limit);
      assert NeverForgets(w, steps, after) && !SeesFrom(Run(w, steps), after);
    }
  }

  /** A live stream that has received nothing is opened again behind entries it was to follow. */
  predicate Slips(w: World, step: Step) {
    (step.Reconnect? || step.Reload?) && View(w.client) == [] && w.client.conn.resume.Live? && w.client.start < |w.log|
  }

  predicate NeverSlips(w: World, steps: seq<Step>) {
    steps == [] || (NeverSlips(w, Init(steps)) && !Slips(Run(w, Init(steps)), Last(steps)))
  }

  predicate LiveUntilSeen(w: World) { w.client.seen == [] ==> w.client.conn.resume.Live? }

  lemma {:induction false} StepSlips(w: World, step: Step)
    requires Tracks(w) && LiveUntilSeen(w)
    ensures LiveUntilSeen(Next(w, step)) && w.client.start <= Next(w, step).client.start
    ensures Next(w, step).client.start == w.client.start <==> !Slips(w, step)
  {
  }

  /** A client that came without a cursor follows from the length of the log then, exactly where it
      never slips; where it does, what was logged in between is before the stretch it sees. */
  lemma {:induction false} LiveLosesExactly(w: World, steps: seq<Step>)
    requires Tracks(w) && LiveUntilSeen(w)
    ensures LiveUntilSeen(Run(w, steps)) && w.client.start <= Run(w, steps).client.start
    ensures Run(w, steps).client.start == w.client.start
            <==> NeverSlips(w, steps)
  {
    if steps != [] {
      LiveLosesExactly(w, Init(steps));
      RunTracks(w, Init(steps));
      StepSlips(Run(w, Init(steps)), Last(steps));
    }
  }

  /** One live stream, severed before its first event and opened live again: the event logged before
      that never reaches it, though it has caught up. */
  lemma {:induction false} LiveAgainLoses()
    ensures var w := Run(Joins([], 1, None, None, 0), [Tick(false, ""), Drop, Reconnect(0)]);
            w.log == [Event(1, "")] && View(w.client) == [] && CaughtUp(w.client.conn)
  {
    var w := Joins([], 1, None, None, 0);
    ThreeSteps(w, Tick(false, ""), Drop, Reconnect(0));
    assert Next(w, Tick(false, "")).log == [] + [Event(1, "")];
  }

  /** A server that carries out such a run, whatever other streams it has, is the machine. */
  method Follow(server: Server, since: Option<string>, lastEventId: Option<string>, limit: nat, steps: seq<Step>)
    returns (client: Client)
    requires server.Valid()
    modifies server
    ensures server.Valid()
    ensures World(server.log, server.nextSeq, client)
            == Run(Joins(old(server.log), old(server.nextSeq), since, lastEventId, limit), steps)
  {
    ghost var w := Joins(server.log, server.nextSeq, since, lastEventId, limit);
    var id: nat;
    client, id := Join(server, since, lastEventId, limit);
    assert steps[..0] == [];
    for n := 0 to |steps|
      invariant server.Valid() && id < |server.conns| && client.conn == server.conns[id]
      invariant World(server.log, server.nextSeq, client) == Run(w, steps[..n])
    {
      assert Init(steps[..n + 1]) == steps[..n];
      client, id := Carry(server, id, client, steps[n]);
    }
    assert steps[..|steps|] == steps;
  }

  method Join(server: Server, since: Option<string>, lastEventId: Option<string>, limit: nat)
    returns (client: Client, id: nat)
    requires server.Valid()
    modifies server
    ensures server.Valid() && id < |server.conns| && client.conn == server.conns[id]
    ensures World(server.log, server.nextSeq, client)
            == Joins(old(server.log), old(server.nextSeq), since, lastEventId, limit)
  {
    id := server.Connect(since, lastEventId, limit);
    client := Client(since, lastEventId, Origin(server.log, server.conns[id]), [], server.conns[id]);
  }

  method Carry(server: Server, id: nat, client: Client, step: Step) returns (next: Client, nextId: nat)
    requires server.Valid() && id < |server.conns| && client.conn == server.conns[id]
    modifies server
    ensures server.Valid() && nextId < |server.conns| && next.conn == server.conns[nextId]
    ensures World(server.log, server.nextSeq, next) == Next(World(old(server.log), old(server.nextSeq), client), step)
  {
    next, nextId := client, id;
    match step {
      case Tick(burned, data) => server.Tick(burned, data);
      case Take => server.Take(id);
      case Write => server.Write(id);
      case Drop => server.Drop(id);
      case Reconnect(limit) => next, nextId := Reopen(server, id, client, client.since, Header(client), limit);
      case Reload(limit) => next, nextId := Reopen(server, id, client, ReloadedSince(client), None, limit);
    }
    next := next.(conn := server.conns[nextId]);
  }

  method Reopen(server: Server, id: nat, client: Client, since: Option<string>, lastEventId: Option<string>, limit: nat)
    returns (next: Client, nextId: nat)
    requires server.Valid() && id < |server.conns| && client.conn == server.conns[id]
    modifies server
    ensures server.Valid() && nextId < |server.conns| && next.conn == server.conns[nextId]
    ensures World(server.log, server.nextSeq, next)
            == Again(World(old(server.log), old(server.nextSeq), client), since, lastEventId, limit)
  {
    server.Drop(id);
    nextId := server.Connect(since, lastEventId, limit);
    var conn, view := server.conns[nextId], View(client);
    next := Client(since, lastEventId, if view == [] then Origin(server.log, conn) else client.start, view, conn);
  }
}
