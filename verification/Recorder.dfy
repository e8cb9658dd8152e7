/** The transport tee (recorder.ts): raw chunks of two directions in, one recorded row per
    complete line out. */
module Recorder {
  import opened Options
  import opened Lines
  import opened FrameGuard

  datatype Direction = In | Out

  /** One line of the recording. A frame that parses is kept as `msg`, any other text as `raw`. */
  datatype Row =
    | Msg(dir: Direction, text: string)
    | Raw(dir: Direction, text: string)
    | Stderr(text: string)
    | Exit(code: Option<int>)

  /** What the recorder asks of the platform: decoding bytes, trimming and JSON.parse. */
  datatype Platform = Platform(decode: seq<byte> -> string, blank: string -> bool, parses: string -> bool)

  function Frame(p: Platform, dir: Direction, text: string): seq<Row> {
    if p.blank(text) then [] else [if p.parses(text) then Msg(dir, text) else Raw(dir, text)]
  }

  /** The rows the complete lines of a direction deserve, in order. */
  function Frames(p: Platform, dir: Direction, lines: seq<seq<byte>>): seq<Row> {
    if lines == [] then [] else Frames(p, dir, Init(lines)) + Frame(p, dir, p.decode(Last(lines)))
  }

  /** The row `close` writes for a line the session ended in the middle of. */
  function TailRow(p: Platform, dir: Direction, open: seq<byte>): seq<Row> {
    if open == [] then [] else [Raw(dir, p.decode(open))]
  }

  /** A direction's rows in a recording. */
  function Of(rows: seq<Row>, dir: Direction): seq<Row> {
    if rows == [] then []
    else Of(Init(rows), dir)
         + (if (Last(rows).Msg? || Last(rows).Raw?) && Last(rows).dir == dir then [Last(rows)] else [])
  }

  lemma {:induction false} OfAppend(xs: seq<Row>, ys: seq<Row>, dir: Direction)
    ensures Of(xs + ys, dir) == Of(xs, dir) + Of(ys, dir)
    decreases |ys|
  {
    if ys == [] {
      assert xs + ys == xs;
    } else {
      assert Init(xs + ys) == xs + Init(ys) && Last(xs + ys) == Last(ys);
      OfAppend(xs, Init(ys), dir);
    }
  }

  lemma {:induction false} OfFrame(p: Platform, dir: Direction, text: string)
    ensures Of(Frame(p, dir, text), dir) == Frame(p, dir, text)
    ensures forall d | d != dir :: Of(Frame(p, dir, text), d) == []
  {
  }

  lemma {:induction false} FramesAppend(p: Platform, dir: Direction, xs: seq<seq<byte>>, ys: seq<seq<byte>>)
    ensures Frames(p, dir, xs + ys) == Frames(p, dir, xs) + Frames(p, dir, ys)
    decreases |ys|
  {
    if ys == [] {
      assert xs + ys == xs;
    } else {
      assert Init(xs + ys) == xs + Init(ys) && Last(xs + ys) == Last(ys);
      FramesAppend(p, dir, xs, Init(ys));
    }
  }

  /** What the recording must hold of a direction that was heard: its lines, and its tail once
      the recording is closed. */
  function Due(p: Platform, dir: Direction, heard: seq<byte>, closed: bool): seq<Row> {
    Frames(p, dir, Done(heard, NEWLINE))
    + (if closed then TailRow(p, dir, Open(heard, NEWLINE)) else [])
  }

  /** The lines that are kept: decoded, and not blank. */
  function Kept(p: Platform, lines: seq<seq<byte>>): seq<string> {
    if lines == [] then []
    else Kept(p, Init(lines)) + if p.blank(p.decode(Last(lines))) then [] else [p.decode(Last(lines))]
  }

  /** A line as it is recorded: its own text, told apart by whether it parses. */
  predicate Records(p: Platform, dir: Direction, row: Row, text: string) {
    row == if p.parses(text) then Msg(dir, text) else Raw(dir, text)
  }

  lemma {:induction false} FramesRecord(p: Platform, dir: Direction, lines: seq<seq<byte>>)
    ensures var rows, texts := Frames(p, dir, lines), Kept(p, lines);
            |rows| == |texts| && forall k | 0 <= k < |rows| :: Records(p, dir, rows[k], texts[k])
  {
    if lines != [] { FramesRecord(p, dir, Init(lines)); }
  }

  /** What a direction deserves, row by row: each complete line that is not blank with its own text, as a message
      exactly where it parses, in order; and, once closed, the unfinished tail raw, whatever it says. */
  lemma {:induction false} DueIs(p: Platform, dir: Direction, heard: seq<byte>, closed: bool)
    ensures var rows, texts, tail := Due(p, dir, heard, closed), Kept(p, Done(heard, NEWLINE)), Open(heard, NEWLINE);
            && |rows| == |texts| + (if closed && tail != [] then 1 else 0)
            && (forall k | 0 <= k < |texts| :: Records(p, dir, rows[k], texts[k]))
            && (closed && tail != [] ==> rows[|texts|] == Raw(dir, p.decode(tail)))
  {
    FramesRecord(p, dir, Done(heard, NEWLINE));
  }

  function Other(dir: Direction): Direction {
    if dir == In then Out else In
  }

  class Tee {
    const platform: Platform
    var pending: map<Direction, seq<byte>>
    var closed: bool
    var rows: seq<Row>
    ghost var heard: map<Direction, seq<byte>>  // every byte noted while open

    ghost predicate Valid()
      reads this
    {
      pending.Keys == heard.Keys == {In, Out} && Keeps(In) && Keeps(Out)
    }

    ghost predicate Keeps(dir: Direction)
      requires dir in pending && dir in heard
      reads this
    {
      && Of(rows, dir) == Due(platform, dir, heard[dir], closed)
      && (!closed ==> pending[dir] == Open(heard[dir], NEWLINE))
    }

    constructor (platform: Platform)
      ensures Valid() && !closed && rows == []
      ensures heard == map[In := [], Out := []] && this.platform == platform
    {
      this.platform := platform;
      pending := map[In := [], Out := []];
      heard := map[In := [], Out := []];
      closed, rows := false, [];
    }

    /** For every chunk: exactly the rows of the lines it completes, after what was there. */
    method Note(dir: Direction, bytes: seq<byte>)
      requires Valid()
      modifies this
      ensures Valid() && closed == old(closed)
      ensures old(closed) ==> rows == old(rows) && heard == old(heard)
      ensures !old(closed) ==> heard == old(heard)[dir := old(heard)[dir] + bytes]
      ensures !old(closed) ==>
                rows == old(rows) + Frames(platform, dir, Done(old(pending)[dir] + bytes, NEWLINE))
    {
      if closed { return; }
      var buffer := pending[dir] + bytes;
      var from := WriteLines(dir, buffer);
      heard := heard[dir := heard[dir] + bytes];
      pending := pending[dir := buffer[from..]];
      NoteKeeps(old(rows), old(heard)[dir], bytes, dir, platform);
      assert Keeps(Other(dir));
    }

    /** One complete line of a buffer. */
    method WriteLine(dir: Direction, line: seq<byte>, ghost start: seq<Row>, ghost done: seq<seq<byte>>)
      requires rows == start + Frames(platform, dir, done)
      modifies `rows
      ensures rows == start + Frames(platform, dir, done + [line])
    {
      assert Init(done + [line]) == done && Last(done + [line]) == line;
      rows := rows + Frame(platform, dir, platform.decode(line));
    }

    /** `note`'s loop over the complete lines of a buffer. */
    method WriteLines(dir: Direction, buffer: seq<byte>) returns (from: nat)
      modifies `rows
      ensures from <= |buffer| && buffer[from..] == Open(buffer, NEWLINE)
      ensures rows == old(rows) + Frames(platform, dir, Done(buffer, NEWLINE))
    {
      from := 0;
      ghost var start := rows;
      ghost var done: seq<seq<byte>> := [];
      assert buffer[..0] == [];
      while true
        invariant 0 <= from <= |buffer|
        invariant Open(buffer[..from], NEWLINE) == [] && Done(buffer[..from], NEWLINE) == done
        invariant rows == start + Frames(platform, dir, done)
        decreases |buffer| - from
      {
        var newline := NextSep(buffer, NEWLINE, from);
        NextSepIsFirst(buffer, NEWLINE, from);
        LineEnds(buffer, from, newline, NEWLINE);
        if newline == |buffer| { return; }
        WriteLine(dir, buffer[from..newline], start, done);
        done := done + [buffer[from..newline]];
        from := newline + 1;
      }
    }

    method NoteStderr(bytes: seq<byte>)
      requires Valid()
      modifies `rows
      ensures Valid()
      ensures rows == if closed || bytes == [] then old(rows) else old(rows) + [Stderr(platform.decode(bytes))]
    {
      if closed || bytes == [] { return; }
      OfAppend(rows, [Stderr(platform.decode(bytes))], In);
      OfAppend(rows, [Stderr(platform.decode(bytes))], Out);
      rows := rows + [Stderr(platform.decode(bytes))];
    }

    method NoteExit(code: Option<int>)
      requires Valid()
      modifies `rows
      ensures Valid()
      ensures rows == if closed then old(rows) else old(rows) + [Exit(code)]
    {
      if closed { return; }
      OfAppend(rows, [Exit(code)], In);
      OfAppend(rows, [Exit(code)], Out);
      rows := rows + [Exit(code)];
    }

    /** The unfinished tail of each direction, once: closing again changes nothing. */
    method Close()
      requires Valid()
      modifies this
      ensures Valid() && closed && heard == old(heard)
      ensures old(closed) ==> rows == old(rows)
      ensures !old(closed) ==> rows == old(rows) + TailRow(platform, In, old(pending)[In])
                                       + TailRow(platform, Out, old(pending)[Out])
    {
      if closed { return; }
      TailsGrow(rows, pending[In], pending[Out], platform);
      DueAtClose(platform, In, heard[In]);
      DueAtClose(platform, Out, heard[Out]);
      rows := rows + TailRow(platform, In, pending[In]);
      rows := rows + TailRow(platform, Out, pending[Out]);
      pending := map[In := [], Out := []];
      closed := true;
    }
  }

  lemma {:induction false} DueAtClose(p: Platform, dir: Direction, heard: seq<byte>)
    ensures Due(p, dir, heard, true) == Due(p, dir, heard, false) + TailRow(p, dir, Open(heard, NEWLINE))
  {
  }

  lemma {:induction false} RowsGrow(was: seq<Row>, lines: seq<seq<byte>>, dir: Direction, p: Platform)
    ensures var rows := was + Frames(p, dir, lines);
            && Of(rows, dir) == Of(was, dir) + Frames(p, dir, lines)
            && Of(rows, Other(dir)) == Of(was, Other(dir))
  {
    OfAppend(was, Frames(p, dir, lines), dir);
    OfAppend(was, Frames(p, dir, lines), Other(dir));
    OfFrames(p, dir, lines, dir);
    OfFrames(p, dir, lines, Other(dir));
  }

  lemma {:induction false} NoteKeeps(was: seq<Row>, heard: seq<byte>, bytes: seq<byte>, dir: Direction, p: Platform)
    requires Of(was, dir) == Due(p, dir, heard, false)
    ensures var buffer := Open(heard, NEWLINE) + bytes;
            var rows := was + Frames(p, dir, Done(buffer, NEWLINE));
            && Of(rows, dir) == Due(p, dir, heard + bytes, false)
            && Of(rows, Other(dir)) == Of(was, Other(dir))
            && Open(heard + bytes, NEWLINE) == Open(buffer, NEWLINE)
  {
    var lines := Done(Open(heard, NEWLINE) + bytes, NEWLINE);
    StreamGrows(heard, bytes, dir, p);
    RowsGrow(was, lines, dir, p);
    DueWhileOpen(p, dir, heard);
    DueWhileOpen(p, dir, heard + bytes);
  }

  lemma {:induction false} DueWhileOpen(p: Platform, dir: Direction, heard: seq<byte>)
    ensures Due(p, dir, heard, false) == Frames(p, dir, Done(heard, NEWLINE))
  {
  }

  lemma {:induction false} OfTail(p: Platform, dir: Direction, open: seq<byte>, d: Direction)
    ensures Of(TailRow(p, dir, open), d) == if d == dir then TailRow(p, dir, open) else []
  {
    if open != [] {
      var row := Raw(dir, p.decode(open));
      assert Init([row]) == [] && Last([row]) == row;
    }
  }

  lemma {:induction false} TailsGrowIn(was: seq<Row>, ins: seq<byte>, outs: seq<byte>, p: Platform, d: Direction)
    ensures Of(was + TailRow(p, In, ins) + TailRow(p, Out, outs), d)
         == Of(was, d) + if d == In then TailRow(p, In, ins) else TailRow(p, Out, outs)
  {
    OfAppend(was, TailRow(p, In, ins), d);
    OfAppend(was + TailRow(p, In, ins), TailRow(p, Out, outs), d);
    OfTail(p, In, ins, d);
    OfTail(p, Out, outs, d);
  }

  lemma {:induction false} TailsGrow(was: seq<Row>, ins: seq<byte>, outs: seq<byte>, p: Platform)
    ensures var rows := was + TailRow(p, In, ins) + TailRow(p, Out, outs);
            && Of(rows, In) == Of(was, In) + TailRow(p, In, ins)
            && Of(rows, Out) == Of(was, Out) + TailRow(p, Out, outs)
  {
    TailsGrowIn(was, ins, outs, p, In);
    TailsGrowIn(was, ins, outs, p, Out);
  }

  lemma {:induction false} StreamGrows(heard: seq<byte>, bytes: seq<byte>, dir: Direction, p: Platform)
    ensures var buffer := Open(heard, NEWLINE) + bytes;
            && Frames(p, dir, Done(heard + bytes, NEWLINE))
               == Frames(p, dir, Done(heard, NEWLINE)) + Frames(p, dir, Done(buffer, NEWLINE))
            && Open(heard + bytes, NEWLINE) == Open(buffer, NEWLINE)
  {
    SplitAppend(heard, bytes, NEWLINE);
    FramesAppend(p, dir, Done(heard, NEWLINE), Done(Open(heard, NEWLINE) + bytes, NEWLINE));
  }

  lemma {:induction false} OfFrames(p: Platform, dir: Direction, lines: seq<seq<byte>>, d: Direction)
    ensures Of(Frames(p, dir, lines), d) == if d == dir then Frames(p, dir, lines) else []
    decreases |lines|
  {
    if lines != [] {
      var front, last := Frames(p, dir, Init(lines)), Frame(p, dir, p.decode(Last(lines)));
      OfFrames(p, dir, Init(lines), d);
      OfFrame(p, dir, p.decode(Last(lines)));
      OfAppend(front, last, d);
    }
  }

  /** The bytes of one direction, joined. */
  function Spoken(chunks: seq<(Direction, seq<byte>)>, dir: Direction): seq<byte> {
    if chunks == [] then []
    else Spoken(Init(chunks), dir) + (if Last(chunks).0 == dir then Last(chunks).1 else [])
  }

  lemma {:induction false} SpokenStep(chunks: seq<(Direction, seq<byte>)>, n: nat, dir: Direction)
    requires n < |chunks|
    ensures Spoken(chunks[..n + 1], dir) == Spoken(chunks[..n], dir) + if chunks[n].0 == dir then chunks[n].1 else []
  {
    assert Init(chunks[..n + 1]) == chunks[..n];
  }

  /** Recording a direction in any chunks, with anything of the other direction in between, leaves
      that direction's rows as if its bytes had come at once: the complete lines that are not
      blank, in order, and the unfinished tail when the recording is closed. */
  method Record(chunks: seq<(Direction, seq<byte>)>, platform: Platform) returns (rows: seq<Row>)
    ensures Of(rows, In) == Due(platform, In, Spoken(chunks, In), true)
    ensures Of(rows, Out) == Due(platform, Out, Spoken(chunks, Out), true)
  {
    var tee := new Tee(platform);
    for n := 0 to |chunks|
      invariant tee.Valid() && !tee.closed && tee.platform == platform
      invariant tee.heard[In] == Spoken(chunks[..n], In) && tee.heard[Out] == Spoken(chunks[..n], Out)
    {
      SpokenStep(chunks, n, In);
      SpokenStep(chunks, n, Out);
      tee.Note(chunks[n].0, chunks[n].1);
    }
    assert chunks[..|chunks|] == chunks;
    tee.Close();
    return tee.rows;
  }
}
