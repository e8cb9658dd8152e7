/** Which provider reviews a node's work (pick-reviewer.ts). */
module PickReviewer {
  import opened Options
  import opened StableSort
  import opened Capabilities
  import opened Admission

  type Provider = string

  datatype Candidate = Candidate(
    provider: Provider, row: Option<Row>, healthy: bool, structuredOutput: bool,
    levels: seq<Permission>, maxContext: nat)

  datatype Routing = Routing(
    producer: Provider, permission: Permission, packetTokens: nat, names: seq<string>,
    candidates: seq<Candidate>, order: seq<Provider>)

  datatype Failure = Health | StructuredOutput | Level | Context | NotProbed | Requirement(name: string)

  datatype Exclusion = Exclusion(provider: Provider, failed: seq<Failure>)

  datatype Decision =
    | Routed(provider: Provider, weakened: bool, excluded: seq<Exclusion>)
    | NeedsHuman(excluded: seq<Exclusion>)

  predicate WellNamed(r: Routing) { forall k | 0 <= k < |r.names| :: Askable(r.names[k]) }

  /** 60% of the window, rounded down. */
  function Ceiling(maxContext: nat): nat { maxContext * 6 / 10 }

  function If(c: bool, f: Failure): seq<Failure> { if c then [f] else [] }

  function MissingNames(names: seq<string>, row: Row): seq<Failure> {
    if names == [] then []
    else
      var last := names[|names| - 1];
      MissingNames(names[..|names| - 1], row) + If(!Grants(row, last), Requirement(last))
  }

  function FailuresBeforeRow(c: Candidate, r: Routing): seq<Failure> {
    If(!c.healthy, Health) + If(!c.structuredOutput, StructuredOutput) + If(r.permission !in c.levels, Level)
    + If(r.packetTokens > Ceiling(c.maxContext), Context)
  }

  function FailuresOf(c: Candidate, r: Routing): seq<Failure>
    requires WellNamed(r)
  {
    FailuresBeforeRow(c, r) + if c.row.None? then [NotProbed] else MissingNames(r.names, c.row.value)
  }

  method ListFailures(c: Candidate, r: Routing) returns (failed: seq<Failure>)
    requires WellNamed(r)
    ensures failed == FailuresOf(c, r)
  {
    failed := [];
    if !c.healthy { failed := failed + [Health]; }
    if !c.structuredOutput { failed := failed + [StructuredOutput]; }
    if r.permission !in c.levels { failed := failed + [Level]; }
    if r.packetTokens > Ceiling(c.maxContext) { failed := failed + [Context]; }
    assert failed == FailuresBeforeRow(c, r);
    if c.row.None? { return failed + [NotProbed]; }
    var missing := ListMissing(r.names, c.row.value);
    return failed + missing;
  }

  method ListMissing(names: seq<string>, row: Row) returns (failed: seq<Failure>)
    requires forall k | 0 <= k < |names| :: Askable(names[k])
    ensures failed == MissingNames(names, row)
  {
    failed := [];
    for n := 0 to |names|
      invariant failed == MissingNames(names[..n], row)
    {
      assert names[..n + 1][..n] == names[..n];
      assert Askable(names[n]);
      var answer := AskCapability(row, CAPABILITY_REQUIREMENTS[names[n]]);
      if answer.supported == Some(true) { continue; }
      failed := failed + [Requirement(names[n])];
    }
    assert names[..|names|] == names;
  }

  /** What a reviewer must be: healthy, able to return a contract, able to express the level, with
      room for the packet, probed, and admitted by its row for everything required. */
  predicate Capable(c: Candidate, r: Routing)
    requires WellNamed(r)
  {
    && c.healthy && c.structuredOutput && r.permission in c.levels && 10 * r.packetTokens <= 6 * c.maxContext
    && c.row.Some? && forall k | 0 <= k < |r.names| :: Grants(c.row.value, r.names[k])
  }

  lemma {:induction false} MissingNamesMeans(names: seq<string>, row: Row)
    ensures MissingNames(names, row) == [] <==> forall k | 0 <= k < |names| :: Grants(row, names[k])
  {
    var missing := MissingNames(names, row);
    if missing != [] {
      MissingNamesAre(names, row, missing[0]);
      assert missing[0] in missing;
    }
    forall k | 0 <= k < |names| && !Grants(row, names[k]) ensures missing != [] {
      MissingNamesAre(names, row, Requirement(names[k]));
    }
  }

  lemma {:induction false} NoFailuresMeansCapable(c: Candidate, r: Routing)
    requires WellNamed(r)
    ensures FailuresOf(c, r) == [] <==> Capable(c, r)
  {
    if c.row.Some? { MissingNamesMeans(r.names, c.row.value); }
  }

  /** What a candidate fails, requirement by requirement. */
  predicate Fails(c: Candidate, r: Routing, f: Failure)
    requires WellNamed(r)
  {
    match f
    case Health => !c.healthy
    case StructuredOutput => !c.structuredOutput
    case Level => r.permission !in c.levels
    case Context => 10 * r.packetTokens > 6 * c.maxContext
    case NotProbed => c.row.None?
    case Requirement(name) => c.row.Some? && name in r.names && !Grants(c.row.value, name)
  }

  lemma {:induction false} MissingNamesAre(names: seq<string>, row: Row, f: Failure)
    ensures f in MissingNames(names, row) <==> f.Requirement? && f.name in names && !Grants(row, f.name)
    decreases |names|
  {
    if names != [] {
      var front := names[..|names| - 1];
      MissingNamesAre(front, row, f);
      assert names == front + [names[|names| - 1]];
    }
  }

  lemma {:induction false} FailuresBeforeRowAre(c: Candidate, r: Routing, f: Failure)
    requires WellNamed(r)
    ensures f in FailuresBeforeRow(c, r) <==> !f.NotProbed? && !f.Requirement? && Fails(c, r, f)
  {
  }

  /** The list holds exactly what the candidate fails. */
  lemma {:induction false} FailuresAre(c: Candidate, r: Routing, f: Failure)
    requires WellNamed(r)
    ensures f in FailuresOf(c, r) <==> Fails(c, r, f)
  {
    FailuresBeforeRowAre(c, r, f);
    if c.row.Some? { MissingNamesAre(r.names, c.row.value, f); }
  }

  function Rank(order: seq<Provider>): Candidate -> int { (c: Candidate) => IndexIn(order, c.provider) as int }

  function CapableIn(r: Routing): Candidate -> bool
    requires WellNamed(r)
  {
    (c: Candidate) => FailuresOf(c, r) == []
  }

  function OthersIn(r: Routing): Candidate -> bool { (c: Candidate) => c.provider != r.producer }

  /** A capable provider other than the producer's. */
  function PreferredIn(r: Routing): Candidate -> bool
    requires WellNamed(r)
  {
    (c: Candidate) => FailuresOf(c, r) == [] && c.provider != r.producer
  }

  function Excluded(candidates: seq<Candidate>, r: Routing): seq<Exclusion>
    requires WellNamed(r)
  {
    if candidates == [] then []
    else (if FailuresOf(candidates[0], r) == [] then []
          else [Exclusion(candidates[0].provider, FailuresOf(candidates[0], r))])
         + Excluded(candidates[1..], r)
  }

  /** The candidates that are not capable, each with what it fails, in probe order. */
  lemma {:induction false} ExcludedAre(candidates: seq<Candidate>, r: Routing)
    requires WellNamed(r)
    ensures var out := Filter(candidates, (c: Candidate) => FailuresOf(c, r) != []);
            && |Excluded(candidates, r)| == |out|
            && forall k | 0 <= k < |out| ::
                 Excluded(candidates, r)[k] == Exclusion(out[k].provider, FailuresOf(out[k], r))
    decreases |candidates|
  {
    if candidates != [] { ExcludedAre(candidates[1..], r); }
  }

  /** Without an order, probe order stands. */
  function Ranked(candidates: seq<Candidate>, order: seq<Provider>): seq<Candidate> {
    if order == [] then candidates else Sort(candidates, Rank(order))
  }

  function Pick(r: Routing): Decision
    requires WellNamed(r)
  {
    var capable, excluded := Filter(r.candidates, CapableIn(r)), Excluded(r.candidates, r);
    var preferred := Ranked(Filter(capable, OthersIn(r)), r.order);
    if preferred != [] then Routed(preferred[0].provider, false, excluded)
    else if exists k :: 0 <= k < |capable| && capable[k].provider == r.producer then Routed(r.producer, true, excluded)
    else NeedsHuman(excluded)
  }

  lemma {:induction false} SplitStep(r: Routing, n: nat, capable: seq<Candidate>, excluded: seq<Exclusion>)
    requires WellNamed(r) && n < |r.candidates|
    ensures var c := r.candidates[n];
            && (FailuresOf(c, r) == [] ==>
                  && (capable + [c]) + Filter(r.candidates[n + 1..], CapableIn(r))
                      == capable + Filter(r.candidates[n..], CapableIn(r))
                  && Excluded(r.candidates[n + 1..], r) == Excluded(r.candidates[n..], r))
            && (FailuresOf(c, r) != [] ==>
                  && Filter(r.candidates[n + 1..], CapableIn(r)) == Filter(r.candidates[n..], CapableIn(r))
                  && (excluded + [Exclusion(c.provider, FailuresOf(c, r))]) + Excluded(r.candidates[n + 1..], r)
                     == excluded + Excluded(r.candidates[n..], r))
  {
    assert r.candidates[n..][1..] == r.candidates[n + 1..];
  }

  method SplitCandidates(r: Routing) returns (capable: seq<Candidate>, excluded: seq<Exclusion>)
    requires WellNamed(r)
    ensures capable == Filter(r.candidates, CapableIn(r)) && excluded == Excluded(r.candidates, r)
  {
    capable, excluded := [], [];
    for n := 0 to |r.candidates|
      invariant capable + Filter(r.candidates[n..], CapableIn(r)) == Filter(r.candidates, CapableIn(r))
      invariant excluded + Excluded(r.candidates[n..], r) == Excluded(r.candidates, r)
    {
      SplitStep(r, n, capable, excluded);
      var failed := ListFailures(r.candidates[n], r);
      if |failed| == 0 {
        capable := capable + [r.candidates[n]];
      } else {
        excluded := excluded + [Exclusion(r.candidates[n].provider, failed)];
      }
    }
    assert r.candidates[|r.candidates|..] == [];
  }

  method ChooseReviewer(r: Routing) returns (d: Decision)
    requires WellNamed(r)
    ensures d == Pick(r)
  {
    var capable, excluded := SplitCandidates(r);
    var preferred := Ranked(Filter(capable, OthersIn(r)), r.order);
    if preferred != [] { return Routed(preferred[0].provider, false, excluded); }
    for n := 0 to |capable|
      invariant forall k | 0 <= k < n :: capable[k].provider != r.producer
    {
      if capable[n].provider == r.producer { return Routed(capable[n].provider, true, excluded); }
    }
    return NeedsHuman(excluded);
  }

  // ---------- The choice is the best ----------

  lemma {:induction false} SortByNothing(xs: seq<Candidate>)
    ensures Sort(xs, Rank([])) == xs
    decreases |xs|
  {
    if xs != [] {
      SortByNothing(xs[1..]);
      assert [xs[0]] + xs[1..] == xs;
    }
  }

  lemma {:induction false} PreferredIsPick(r: Routing)
    requires WellNamed(r)
    ensures Ranked(Filter(Filter(r.candidates, CapableIn(r)), OthersIn(r)), r.order)
         == Filter(Sort(r.candidates, Rank(r.order)), PreferredIn(r))
  {
    FilterTwice(r.candidates, CapableIn(r), OthersIn(r), PreferredIn(r));
    FilterSort(r.candidates, Rank(r.order), PreferredIn(r));
    SortByNothing(Filter(r.candidates, PreferredIn(r)));
  }

  lemma {:induction false} CapableAre(r: Routing, k: nat)
    requires WellNamed(r) && k < |r.candidates|
    ensures var c := r.candidates[k];
            && (PreferredIn(r)(c) <==> Capable(c, r) && c.provider != r.producer)
            && (Capable(c, r) <==> c in Filter(r.candidates, CapableIn(r)))
  {
    NoFailuresMeansCapable(r.candidates[k], r);
    FilterHolds(r.candidates, CapableIn(r));
  }

  lemma {:induction false} CapableIsACandidate(r: Routing, c: Candidate)
    requires WellNamed(r) && c in Filter(r.candidates, CapableIn(r))
    ensures c in r.candidates
  {
    FilterHolds(r.candidates, CapableIn(r));
  }

  lemma {:induction false} CapableIsSome(r: Routing)
    requires WellNamed(r)
    ensures Filter(r.candidates, CapableIn(r)) == [] <==>
              forall k | 0 <= k < |r.candidates| :: !Capable(r.candidates[k], r)
  {
    var capable := Filter(r.candidates, CapableIn(r));
    forall k | 0 <= k < |r.candidates| ensures Capable(r.candidates[k], r) <==> r.candidates[k] in capable {
      CapableAre(r, k);
    }
    if capable != [] { CapableIsACandidate(r, capable[0]); }
  }

  lemma {:induction false} RankedIsSome(candidates: seq<Candidate>, order: seq<Provider>)
    ensures Ranked(candidates, order) == [] <==> candidates == []
  {
    SortSorts(candidates, Rank(order));
  }

  lemma {:induction false} OthersOrProducer(capable: seq<Candidate>, r: Routing)
    ensures capable != [] && Filter(capable, OthersIn(r)) == [] ==> capable[0].provider == r.producer
    ensures capable == [] ==> Filter(capable, OthersIn(r)) == []
  {
    if capable != [] { FilterHolds(capable, OthersIn(r)); assert capable[0] in capable; }
  }

  /** Whether there is a reviewer at all. */
  lemma {:induction false} HumanOnlyWhereNoneIs(r: Routing)
    requires WellNamed(r)
    ensures Pick(r).NeedsHuman? <==> forall k | 0 <= k < |r.candidates| :: !Capable(r.candidates[k], r)
    ensures Pick(r).Routed? && Pick(r).weakened ==> Pick(r).provider == r.producer
  {
    var capable := Filter(r.candidates, CapableIn(r));
    CapableIsSome(r);
    RankedIsSome(Filter(capable, OthersIn(r)), r.order);
    OthersOrProducer(capable, r);
  }

  /** The capable provider of the least rank reviews, the first probed among those, and never the
      producer's; the producer's own reviews, marked as weaker, exactly where it alone is capable;
      and exactly where none is, a human is asked. */
  lemma {:induction false} ReviewerIsBest(r: Routing)
    requires WellNamed(r)
    ensures var d := Pick(r);
            && (d.Routed? && !d.weakened <==>
                  exists k :: 0 <= k < |r.candidates| && Capable(r.candidates[k], r)
                      && r.candidates[k].provider != r.producer)
            && (d.Routed? && !d.weakened ==>
                  exists i: nat :: Best(r.candidates, Rank(r.order), PreferredIn(r), i)
                      && r.candidates[i].provider == d.provider)
            && (d.Routed? && d.weakened ==> d.provider == r.producer)
            && (d.NeedsHuman? <==> forall k | 0 <= k < |r.candidates| :: !Capable(r.candidates[k], r))
            && d.excluded == Excluded(r.candidates, r)
  {
    HumanOnlyWhereNoneIs(r);
    PreferredIsPick(r);
    PickIsBest(r.candidates, Rank(r.order), PreferredIn(r));
    forall k | 0 <= k < |r.candidates|
      ensures PreferredIn(r)(r.candidates[k]) <==> Capable(r.candidates[k], r) && r.candidates[k].provider != r.producer
    {
      CapableAre(r, k);
    }
  }

  /** The same candidates, of which those that were capable still are. */
  ghost predicate NoLessCapable(r: Routing, q: Routing)
    requires WellNamed(r) && WellNamed(q)
  {
    && r.producer == q.producer && r.order == q.order && |r.candidates| == |q.candidates|
    && (forall k | 0 <= k < |r.candidates| :: r.candidates[k].provider == q.candidates[k].provider)
    && (forall k | 0 <= k < |r.candidates| :: Capable(r.candidates[k], r) ==> Capable(q.candidates[k], q))
  }

  /** How good a decision is: the rank and the place in probe order of an independent reviewer, then
      a weakened review, then none. */
  ghost predicate AsGood(r: Routing, d: Decision, q: Routing, e: Decision)
    requires WellNamed(r) && WellNamed(q)
  {
    if d.NeedsHuman? then true
    else if d.weakened then e.Routed?
    else
      && e.Routed? && !e.weakened
      && exists i: nat, j: nat ::
           && Best(r.candidates, Rank(r.order), PreferredIn(r), i) && r.candidates[i].provider == d.provider
           && Best(q.candidates, Rank(q.order), PreferredIn(q), j) && q.candidates[j].provider == e.provider
           && (Rank(q.order)(q.candidates[j]) < Rank(r.order)(r.candidates[i])
               || (Rank(q.order)(q.candidates[j]) == Rank(r.order)(r.candidates[i]) && j <= i))
  }

  lemma {:induction false} BestReviewer(r: Routing) returns (i: nat)
    requires WellNamed(r) && Pick(r).Routed? && !Pick(r).weakened
    ensures Best(r.candidates, Rank(r.order), PreferredIn(r), i) && r.candidates[i].provider == Pick(r).provider
  {
    ReviewerIsBest(r);
    i :| Best(r.candidates, Rank(r.order), PreferredIn(r), i) && r.candidates[i].provider == Pick(r).provider;
  }

  lemma {:induction false} IndependentStays(r: Routing, q: Routing)
    requires WellNamed(r) && WellNamed(q) && NoLessCapable(r, q) && Pick(r).Routed? && !Pick(r).weakened
    ensures AsGood(r, Pick(r), q, Pick(q))
  {
    var i := BestReviewer(r);
    CapableAre(r, i);
    CapableAre(q, i);
    ReviewerIsBest(q);
    var j := BestReviewer(q);
    assert PreferredIn(q)(q.candidates[i]);
  }

  /** Making a candidate capable never makes the decision worse. */
  lemma {:induction false} MoreCapableIsNoWorse(r: Routing, q: Routing)
    requires WellNamed(r) && WellNamed(q) && NoLessCapable(r, q)
    ensures AsGood(r, Pick(r), q, Pick(q))
  {
    if Pick(r).Routed? && !Pick(r).weakened {
      IndependentStays(r, q);
    } else if Pick(r).Routed? {
      HumanOnlyWhereNoneIs(r);
      HumanOnlyWhereNoneIs(q);
      var k :| 0 <= k < |r.candidates| && Capable(r.candidates[k], r);
      assert Capable(q.candidates[k], q);
    }
  }
}
