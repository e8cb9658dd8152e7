/** Cutting a stream at a separator: the lines that are complete and the one still open. Every
    line splitter of the adapters, over bytes or over characters, refines these two functions,
    whatever chunks it is fed: the frame guard, the recorder and the shim's read loop. */
module Lines {

  function Last<T>(s: seq<T>): T
    requires s != []
  {
    s[|s| - 1]
  }

  function Init<T>(s: seq<T>): seq<T>
    requires s != []
  {
    s[..|s| - 1]
  }

  /** What follows the last separator. */
  function Open<T(==)>(s: seq<T>, sep: T): (r: seq<T>) {
    if s == [] || Last(s) == sep then [] else Open(Init(s), sep) + [Last(s)]
  }

  /** The pieces that a separator ends, in order. */
  function Done<T(==)>(s: seq<T>, sep: T): (r: seq<seq<T>>) {
    if s == [] then []
    else if Last(s) == sep then Done(Init(s), sep) + [Open(Init(s), sep)]
    else Done(Init(s), sep)
  }

  /** JavaScript's `split`: every piece, the open one last. */
  function Split<T(==)>(s: seq<T>, sep: T): seq<seq<T>> {
    Done(s, sep) + [Open(s, sep)]
  }

  function Join<T>(pieces: seq<seq<T>>, sep: T): seq<T>
    requires pieces != []
  {
    if |pieces| == 1 then pieces[0] else Join(Init(pieces), sep) + [sep] + Last(pieces)
  }

  predicate Free<T(==)>(s: seq<T>, sep: T) {
    forall k | 0 <= k < |s| :: s[k] != sep
  }

  predicate AllFree<T(==)>(pieces: seq<seq<T>>, sep: T) {
    forall k | 0 <= k < |pieces| :: Free(pieces[k], sep)
  }

  // ---------- What the pieces are ----------

  lemma {:induction false} PiecesAreFree<T>(s: seq<T>, sep: T)
    ensures AllFree(Done(s, sep), sep) && Free(Open(s, sep), sep)
  {
    if s != [] { PiecesAreFree(Init(s), sep); }
  }

  lemma {:induction false} JoinGrows<T>(pieces: seq<seq<T>>, last: seq<T>, x: T, sep: T)
    ensures Join(pieces + [last + [x]], sep) == Join(pieces + [last], sep) + [x]
  {
    var a, b := pieces + [last], pieces + [last + [x]];
    assert Init(a) == pieces && Init(b) == pieces;
    if pieces != [] { assert Join(pieces, sep) + [sep] + (last + [x]) == (Join(pieces, sep) + [sep] + last) + [x]; }
  }

  lemma {:induction false} JoinOpens<T>(pieces: seq<seq<T>>, sep: T)
    requires pieces != []
    ensures Join(pieces + [[]], sep) == Join(pieces, sep) + [sep]
  {
    assert Init(pieces + [[]]) == pieces;
  }

  /** The pieces hold no separator, and joining them gives the stream back. */
  lemma {:induction false} SplitJoins<T>(s: seq<T>, sep: T)
    ensures AllFree(Split(s, sep), sep) && Join(Split(s, sep), sep) == s
  {
    PiecesAreFree(s, sep);
    if s != [] {
      var rest := Init(s);
      SplitJoins(rest, sep);
      assert rest + [Last(s)] == s;
      if Last(s) == sep {
        JoinOpens(Split(rest, sep), sep);
      } else {
        JoinGrows(Done(rest, sep), Open(rest, sep), Last(s), sep);
      }
    }
  }

  lemma {:induction false} InitIsFree<T>(s: seq<T>, sep: T)
    requires s != [] && Free(s, sep)
    ensures Free(Init(s), sep) && Last(s) != sep
  {
  }

  lemma {:induction false} FreeIsNotDone<T>(s: seq<T>, sep: T)
    requires Free(s, sep)
    ensures Done(s, sep) == []
  {
    if s != [] {
      InitIsFree(s, sep);
      FreeIsNotDone(Init(s), sep);
    }
  }

  lemma {:induction false} FreeIsOpen<T>(s: seq<T>, sep: T)
    requires Free(s, sep)
    ensures Open(s, sep) == s
  {
    if s != [] {
      InitIsFree(s, sep);
      FreeIsOpen(Init(s), sep);
      InitLast(s);
    }
  }

  lemma {:induction false} InitLast<T>(s: seq<T>)
    requires s != []
    ensures Init(s) + [Last(s)] == s
  {
  }

  lemma {:induction false} FreeSplit<T>(s: seq<T>, sep: T)
    requires Free(s, sep)
    ensures Done(s, sep) == [] && Open(s, sep) == s
  {
    FreeIsNotDone(s, sep);
    FreeIsOpen(s, sep);
  }

  /** A separator and one more piece. */
  lemma {:induction false} SplitMore<T>(front: seq<T>, last: seq<T>, sep: T)
    requires Free(last, sep)
    ensures Split(front + [sep] + last, sep) == Split(front, sep) + [last]
  {
    assert Init(front + [sep]) == front && [] + last == last;
    SplitAppend(front + [sep], last, sep);
    FreeSplit(last, sep);
  }

  /** Splitting what was joined gives the pieces back. */
  lemma {:induction false} JoinSplits<T>(pieces: seq<seq<T>>, sep: T)
    requires pieces != [] && AllFree(pieces, sep)
    ensures Split(Join(pieces, sep), sep) == pieces
    decreases |pieces|
  {
    if |pieces| == 1 {
      FreeSplit(pieces[0], sep);
    } else {
      assert forall k | 0 <= k < |Init(pieces)| :: Init(pieces)[k] == pieces[k];
      JoinSplits(Init(pieces), sep);
      SplitMore(Join(Init(pieces), sep), Last(pieces), sep);
      InitLast(pieces);
    }
  }

  // ---------- Chunks ----------

  /** A stream read in two parts: the second part only ever meets the open piece of the first. */
  lemma {:induction false} SplitAppend<T>(a: seq<T>, b: seq<T>, sep: T)
    ensures Done(a + b, sep) == Done(a, sep) + Done(Open(a, sep) + b, sep)
    ensures Open(a + b, sep) == Open(Open(a, sep) + b, sep)
    decreases |b|
  {
    if b == [] {
      OpenIsFree(a, sep);
      FreeSplit(Open(a, sep), sep);
      assert a + b == a && Open(a, sep) + b == Open(a, sep);
    } else {
      SplitAppend(a, Init(b), sep);
      assert Init(a + b) == a + Init(b) && Last(a + b) == Last(b);
      var c := Open(a, sep) + b;
      assert Init(c) == Open(a, sep) + Init(b) && Last(c) == Last(b);
    }
  }

  lemma {:induction false} OpenIsFree<T>(s: seq<T>, sep: T)
    ensures Free(Open(s, sep), sep)
  {
    if s != [] && Last(s) != sep { OpenIsFree(Init(s), sep); }
  }

  /** The open piece grows by a run without separator... */
  lemma {:induction false} OpenGrows<T>(a: seq<T>, run: seq<T>, sep: T)
    requires Free(run, sep)
    ensures Done(a + run, sep) == Done(a, sep) && Open(a + run, sep) == Open(a, sep) + run
  {
    SplitAppend(a, run, sep);
    OpenIsFree(a, sep);
    FreeSplit(Open(a, sep) + run, sep);
  }

  /** ...and is complete at the separator. */
  lemma {:induction false} OpenCloses<T>(a: seq<T>, run: seq<T>, sep: T)
    requires Free(run, sep)
    ensures Done(a + run + [sep], sep) == Done(a, sep) + [Open(a, sep) + run]
    ensures Open(a + run + [sep], sep) == []
  {
    OpenGrows(a, run, sep);
    assert Init(a + run + [sep]) == a + run;
  }

  /** A scan from where a line starts: the line is complete at the next separator, and open where
      there is none. */
  lemma {:induction false} LineEnds<T>(s: seq<T>, from: nat, end: nat, sep: T)
    requires from <= end <= |s| && Free(s[from..end], sep) && Open(s[..from], sep) == []
    requires end < |s| ==> s[end] == sep
    ensures end < |s| ==> Open(s[..end + 1], sep) == []
    ensures end < |s| ==> Done(s[..end + 1], sep) == Done(s[..from], sep) + [s[from..end]]
    ensures end == |s| ==> Done(s, sep) == Done(s[..from], sep) && Open(s, sep) == s[from..]
  {
    if end < |s| { LineCloses(s, from, end, sep); } else { LineStaysOpen(s, from, sep); }
  }

  lemma {:induction false} LineCloses<T>(s: seq<T>, from: nat, end: nat, sep: T)
    requires from <= end < |s| && s[end] == sep
    requires Free(s[from..end], sep) && Open(s[..from], sep) == []
    ensures Open(s[..end + 1], sep) == []
    ensures Done(s[..end + 1], sep) == Done(s[..from], sep) + [s[from..end]]
  {
    var a, run := s[..from], s[from..end];
    assert s[..end + 1] == a + run + [sep] && [] + run == run;
    OpenCloses(a, run, sep);
  }

  lemma {:induction false} Cut<T>(s: seq<T>, from: nat)
    requires from <= |s|
    ensures s == s[..from] + s[from..] && s[from..] == s[from..|s|]
  {
  }

  lemma {:induction false} LineStaysOpen<T>(s: seq<T>, from: nat, sep: T)
    requires from <= |s| && Free(s[from..|s|], sep) && Open(s[..from], sep) == []
    ensures Done(s, sep) == Done(s[..from], sep) && Open(s, sep) == s[from..]
  {
    Cut(s, from);
    RunStaysOpen(s, s[..from], s[from..], sep);
  }

  lemma {:induction false} RunStaysOpen<T>(s: seq<T>, a: seq<T>, run: seq<T>, sep: T)
    requires s == a + run && Free(run, sep) && Open(a, sep) == []
    ensures Done(s, sep) == Done(a, sep) && Open(s, sep) == run
  {
    OpenGrows(a, run, sep);
    assert [] + run == run;
  }

  /** The first separator at or after `from`, or the length of `s`. */
  function NextSep<T(==)>(s: seq<T>, sep: T, from: nat): (r: nat)
    requires from <= |s|
    ensures from <= r <= |s| && (r < |s| ==> s[r] == sep)
    decreases |s| - from
  {
    if from == |s| || s[from] == sep then from else NextSep(s, sep, from + 1)
  }

  lemma {:induction false} NextSepIsFirst<T>(s: seq<T>, sep: T, from: nat)
    requires from <= |s|
    ensures Free(s[from..NextSep(s, sep, from)], sep)
    decreases |s| - from
  {
    if from < |s| && s[from] != sep {
      NextSepIsFirst(s, sep, from + 1);
      var r := NextSep(s, sep, from);
      assert s[from..r] == [s[from]] + s[from + 1..r];
    }
  }
}
