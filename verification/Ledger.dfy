/** The append-only ledger as the node runners see it: the rows they write, the batches they
    write them in, and what it means for an attempt to be closed: one terminal record, the spend
    immediately before it or not at all, and no scope warning behind it. */
module Ledger {
  import opened Options
  import opened Lines

  type Reason = string

  /** The first of two refusals that stands. */
  function FirstOf(a: Option<Reason>, b: Option<Reason>): Option<Reason> { if a.Some? then a else b }

  /** A refusal is the first that stands of some checks, or none stands. */
  predicate IsFirstOf(checks: seq<Option<Reason>>, refusal: Option<Reason>) {
    if refusal.None? then forall k | 0 <= k < |checks| :: checks[k].None?
    else exists k | 0 <= k < |checks| :: checks[k] == refusal && forall j | 0 <= j < k :: checks[j].None?
  }

  lemma {:induction false} FirstOfIs(first: Option<Reason>, checks: seq<Option<Reason>>, refusal: Option<Reason>)
    requires IsFirstOf(checks, refusal)
    ensures IsFirstOf([first] + checks, FirstOf(first, refusal))
  {
    var all := [first] + checks;
    if first.Some? {
      assert all[0] == first;
    } else if refusal.Some? {
      var k :| 0 <= k < |checks| && checks[k] == refusal && forall j | 0 <= j < k :: checks[j].None?;
      assert all[k + 1] == refusal;
    }
  }

  /** A provider binary, by what `node.started` records of it. */
  datatype Binary = Binary(version: string, sha256: string)

  /** What an attempt is accounted to have spent: the vendor's figure, or DeFlow's own count. */
  datatype Spend = Reported(tokens: nat) | Estimated(input: nat, output: nat)

  datatype Row =
    | Scheduled
    | PinViolated
    | Unschedulable
    | Started(binary: Binary, session: Option<string>)
    | SessionOpened(id: string)
    | Chunk(data: string)                                   // io_chunk: bytes, in the data plane
    | LineFiled(uuid: Option<string>, kind: string)         // node.progress of a shim line
    | UpdateFiled(update: string)                           // node.progress of an ACP update
    | PinsReinjected(turn: nat)
    | Delivered(interjection: nat)                          // human.interjection.delivered
    | RateLimited(resetsAt: Option<nat>, raw: string)
    | Wake(at: nat)
    | Compacted(tokens: nat)
    | ScopeWarning
    | BudgetConsumed(spend: Spend)
    | Failed(reason: Reason)
    | Completed(output: string, tokens: nat)
    | CancelNoted(byUser: bool)                             // node.progress, phase 'cancelled'
    | OverrideAsked(from: Binary, to: Binary)               // human.requested
    | OverrideGiven(fromVersion: string, toVersion: string) // human.responded
    | OverrideNoted                                         // node.progress, 'resume.cross-version-permitted'
    | ResumeRefused                                         // node.progress, 'resume.refused'
    | Suspended
    | Resumed(native: bool)                                 // node.progress of the strategy

  /** Rows appended in one transaction. */
  type Batch = seq<Row>

  function Rows(batches: seq<Batch>): seq<Row> {
    if batches == [] then [] else Rows(Init(batches)) + Last(batches)
  }

  lemma {:induction false} RowsAppend(a: seq<Batch>, b: seq<Batch>)
    ensures Rows(a + b) == Rows(a) + Rows(b)
    decreases |b|
  {
    if b == [] {
      assert a + b == a;
    } else {
      RowsAppend(a, Init(b));
      assert Init(a + b) == a + Init(b) && Last(a + b) == Last(b);
    }
  }

  lemma {:induction false} RowsPush(a: seq<Batch>, b: Batch)
    ensures Rows(a + [b]) == Rows(a) + b
  {
    assert Init(a + [b]) == a && Last(a + [b]) == b;
  }

  // ---------- How an attempt ends ----------

  predicate Terminal(r: Row) {
    r.Completed? || r.Failed? || r.CancelNoted?
  }

  /** Neither a terminal record nor a spend. */
  predicate Quiet(r: Row) {
    !Terminal(r) && !r.BudgetConsumed?
  }

  predicate AllQuiet(rows: seq<Row>) {
    forall k | 0 <= k < |rows| :: Quiet(rows[k])
  }

  /** A closing batch: the terminal record, with the spend immediately before it or with none. */
  predicate Closing(b: Batch) {
    || (|b| == 1 && Terminal(b[0]))
    || (|b| == 2 && b[0].BudgetConsumed? && (b[1].Completed? || b[1].Failed?))
  }

  /** Row `n` is the one terminal record; a spend stands immediately before it or nowhere, and no
      scope warning comes after it. */
  predicate Closed(rows: seq<Row>, n: nat) {
    && n < |rows| && Terminal(rows[n])
    && (forall k | 0 <= k < |rows| && k != n :: !Terminal(rows[k]))
    && (forall k | 0 <= k < |rows| && rows[k].BudgetConsumed? :: k + 1 == n)
    && (forall k | n <= k < |rows| :: !rows[k].ScopeWarning?)
  }

  lemma {:induction false} ClosingCloses(before: seq<Row>, closing: Batch, after: seq<Row>)
    requires AllQuiet(before) && Closing(closing) && AllQuiet(after)
    requires forall k | 0 <= k < |after| :: !after[k].ScopeWarning?
    ensures Closed(before + closing + after, |before| + |closing| - 1)
  {
  }

  lemma {:induction false} QuietAppend(a: seq<Row>, b: seq<Row>)
    requires AllQuiet(a) && AllQuiet(b)
    ensures AllQuiet(a + b)
  {
  }

  predicate Calm(batches: seq<Batch>) {
    forall k | 0 <= k < |batches| :: AllQuiet(batches[k])
  }

  lemma {:induction false} CalmAppend(a: seq<Batch>, b: seq<Batch>)
    requires Calm(a) && Calm(b)
    ensures Calm(a + b)
  {
  }

  lemma {:induction false} CalmRows(batches: seq<Batch>)
    requires Calm(batches)
    ensures AllQuiet(Rows(batches))
  {
    if batches != [] {
      CalmRows(Init(batches));
      QuietAppend(Rows(Init(batches)), Last(batches));
    }
  }

  // ---------- Counting rows ----------

  function Count(rows: seq<Row>, p: Row -> bool): nat {
    if rows == [] then 0 else Count(Init(rows), p) + if p(Last(rows)) then 1 else 0
  }

  lemma {:induction false} CountAppend(a: seq<Row>, b: seq<Row>, p: Row -> bool)
    ensures Count(a + b, p) == Count(a, p) + Count(b, p)
    decreases |b|
  {
    if b == [] {
      assert a + b == a;
    } else {
      CountAppend(a, Init(b), p);
      assert Init(a + b) == a + Init(b) && Last(a + b) == Last(b);
    }
  }

  lemma {:induction false} CountedIsThere(rows: seq<Row>, r: Row)
    ensures Count(rows, (x: Row) => x == r) > 0 <==> r in rows
  {
    if rows != [] {
      CountedIsThere(Init(rows), r);
      assert rows == Init(rows) + [Last(rows)];
    }
  }

  lemma {:induction false} CountRowsAppend(a: seq<Batch>, b: seq<Batch>, p: Row -> bool)
    ensures Count(Rows(a + b), p) == Count(Rows(a), p) + Count(Rows(b), p)
  {
    RowsAppend(a, b);
    CountAppend(Rows(a), Rows(b), p);
  }

  /** The ledger as a runner holds it: it can only grow. */
  class Book {
    var batches: seq<Batch>

    constructor ()
      ensures batches == []
    {
      batches := [];
    }

    method Append(row: Row)
      modifies this
      ensures batches == old(batches) + [[row]]
    {
      batches := batches + [[row]];
    }

    method AppendAll(rows: Batch)
      modifies this
      ensures batches == old(batches) + [rows]
    {
      batches := batches + [rows];
    }
  }
}
