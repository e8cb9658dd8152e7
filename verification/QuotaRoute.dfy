/** Where a node goes when its provider hits a quota (quota-route.ts). */
module QuotaRoute {
  import opened Options
  import opened StableSort
  import opened Capabilities
  import opened Admission

  type Provider = string

  datatype Probed = Probed(provider: Provider, row: Row)

  /** The last rate limit seen for a provider. */
  datatype Limit = Limit(provider: Provider, resetsAt: Option<int>, at: int)

  const BACKOFF_CAP := 300_000

  datatype Input = Input(
    wanted: seq<Requirement>, current: Option<Provider>, prefer: seq<Provider>,
    rows: seq<Probed>, limits: seq<Limit>)

  datatype Route = Reroute(provider: Provider, permissionUnchanged: bool) | Suspend(why: Why)

  datatype Why = NothingElseProbed | AllLimited | NoneCapable

  predicate ProviderIsHealthy(limit: Option<Limit>, now: int) {
    match limit
    case None => true
    case Some(l) => if l.resetsAt.Some? then now >= l.resetsAt.value else now >= l.at + BACKOFF_CAP
  }

  /** A map built from a list: the last entry of a provider is the one that counts. */
  function LimitOf(limits: seq<Limit>, provider: Provider): Option<Limit> {
    if limits == [] then None
    else if limits[|limits| - 1].provider == provider then Some(limits[|limits| - 1])
    else LimitOf(limits[..|limits| - 1], provider)
  }

  /** Entry `k` is the last rate limit seen for a provider. */
  predicate IsLastLimit(limits: seq<Limit>, provider: Provider, k: nat) {
    && k < |limits| && limits[k].provider == provider
    && forall j | k < j < |limits| :: limits[j].provider != provider
  }

  lemma {:induction false} LimitIsLast(limits: seq<Limit>, provider: Provider)
    ensures LimitOf(limits, provider).None? <==> forall k | 0 <= k < |limits| :: limits[k].provider != provider
    ensures forall k: nat | IsLastLimit(limits, provider, k) :: LimitOf(limits, provider) == Some(limits[k])
  {
    if limits != [] {
      var n := |limits| - 1;
      LimitIsLast(limits[..n], provider);
      if limits[n].provider != provider {
        forall k: nat | IsLastLimit(limits, provider, k) ensures IsLastLimit(limits[..n], provider, k) { }
      }
    }
  }

  /** The plan's preferences first; what it does not name comes after them. */
  function Rank(prefer: seq<Provider>): Probed -> int { (p: Probed) => IndexIn(prefer, p.provider) as int }

  predicate Other(input: Input, p: Probed) { Some(p.provider) != input.current }

  predicate Healthy(input: Input, p: Probed, now: int) { ProviderIsHealthy(LimitOf(input.limits, p.provider), now) }

  /** A provider is limited exactly until the instant its last limit named, or for the backoff where it named none;
      one without a limit is not. */
  lemma {:induction false} HealthyMeans(input: Input, p: Probed, now: int, k: nat)
    ensures (forall j | 0 <= j < |input.limits| :: input.limits[j].provider != p.provider) ==> Healthy(input, p, now)
    ensures IsLastLimit(input.limits, p.provider, k) ==>
              var l := input.limits[k];
              Healthy(input, p, now) <==> now >= if l.resetsAt.Some? then l.resetsAt.value else l.at + 300_000
  {
    LimitIsLast(input.limits, p.provider);
  }

  predicate Covers(input: Input, p: Probed) { CapabilitySuperset(Questions(input.wanted), p.row) }

  /** A candidate: not the adapter that refused, healthy, and advertising all that is asked. */
  predicate Eligible(input: Input, p: Probed, now: int) {
    Other(input, p) && Healthy(input, p, now) && Covers(input, p)
  }

  function OtherIn(input: Input): Probed -> bool { (p: Probed) => Other(input, p) }

  function HealthyAt(input: Input, now: int): Probed -> bool { (p: Probed) => Healthy(input, p, now) }

  function CoversIn(input: Input): Probed -> bool { (p: Probed) => Covers(input, p) }

  function EligibleAt(input: Input, now: int): Probed -> bool { (p: Probed) => Eligible(input, p, now) }

  function OrderedCandidates(input: Input): seq<Probed> {
    Sort(Filter(input.rows, OtherIn(input)), Rank(input.prefer))
  }

  function FromRow(rows: seq<Probed>, current: Option<Provider>): Option<Row> {
    if rows == [] then None
    else if Some(rows[0].provider) == current then Some(rows[0].row)
    else FromRow(rows[1..], current)
  }

  /** Row `k` is the first of the adapter the node runs on. */
  predicate IsFrom(rows: seq<Probed>, current: Option<Provider>, k: nat) {
    && k < |rows| && Some(rows[k].provider) == current
    && forall j | 0 <= j < k :: Some(rows[j].provider) != current
  }

  lemma {:induction false} FromIsFirst(rows: seq<Probed>, current: Option<Provider>)
    ensures FromRow(rows, current).None? <==> forall k | 0 <= k < |rows| :: Some(rows[k].provider) != current
    ensures forall k: nat | IsFrom(rows, current, k) :: FromRow(rows, current) == Some(rows[k].row)
    decreases |rows|
  {
    if rows != [] {
      FromIsFirst(rows[1..], current);
      assert forall k | 0 < k < |rows| :: rows[k] == rows[1..][k - 1];
      if Some(rows[0].provider) != current {
        forall k: nat | IsFrom(rows, current, k) ensures k > 0 && IsFrom(rows[1..], current, k - 1) { }
      }
    }
  }

  /** The healthy candidates that cover what is asked, best first. */
  function Chosen(input: Input, now: int): seq<Probed> {
    Filter(Filter(OrderedCandidates(input), HealthyAt(input, now)), CoversIn(input))
  }

  function ChooseQuotaRoute(input: Input, now: int): Route {
    var candidates := OrderedCandidates(input);
    var healthy := Filter(candidates, HealthyAt(input, now));
    var chosen := Chosen(input, now);
    if chosen != [] then
      Reroute(chosen[0].provider,
              RerouteEquivalence(input.wanted, FromRow(input.rows, input.current), chosen[0].row).permissionUnchanged)
    else Suspend(if candidates == [] then NothingElseProbed else if healthy == [] then AllLimited else NoneCapable)
  }

  method Choose(input: Input, now: int) returns (route: Route)
    ensures route == ChooseQuotaRoute(input, now)
  {
    var covers := CoversIn(input);
    var from := FromRow(input.rows, input.current);
    var candidates := OrderedCandidates(input);
    var healthy := Filter(candidates, HealthyAt(input, now));
    for n := 0 to |healthy|
      invariant Filter(healthy[n..], covers) == Filter(healthy, covers)
    {
      assert healthy[n..][1..] == healthy[n + 1..];
      var keys := CapabilityQuestions(input.wanted);
      assert keys == Questions(input.wanted);
      var answer := RerouteEquivalence(input.wanted, from, healthy[n].row);
      if !answer.capabilitySuperset { continue; }
      return Reroute(healthy[n].provider, answer.permissionUnchanged);
    }
    return Suspend(if candidates == [] then NothingElseProbed else if healthy == [] then AllLimited else NoneCapable);
  }

  // ---------- The choice is the best ----------

  /** Dropping the current adapter, sorting, keeping the healthy and scanning for a superset is
      picking the best eligible row. */
  lemma {:induction false} ChosenIsPick(input: Input, now: int)
    ensures Chosen(input, now) == Filter(Sort(input.rows, Rank(input.prefer)), EligibleAt(input, now))
  {
    var sorted := Sort(input.rows, Rank(input.prefer));
    FilterSort(input.rows, Rank(input.prefer), OtherIn(input));
    var both := (p: Probed) => Other(input, p) && Healthy(input, p, now);
    FilterTwice(sorted, OtherIn(input), HealthyAt(input, now), both);
    FilterTwice(sorted, both, CoversIn(input), EligibleAt(input, now));
  }

  /** The node is re-routed exactly where some row is eligible, and then to the eligible row of the
      least rank, the first probed among those; never to the adapter that refused. */
  lemma {:induction false} RouteIsBest(input: Input, now: int)
    ensures var route := ChooseQuotaRoute(input, now);
            && (route.Suspend? <==> forall k | 0 <= k < |input.rows| :: !Eligible(input, input.rows[k], now))
            && (route.Reroute? ==>
                  && Some(route.provider) != input.current
                  && exists i: nat :: Best(input.rows, Rank(input.prefer), EligibleAt(input, now), i)
                                      && input.rows[i].provider == route.provider
                                      && (route.permissionUnchanged <==> Unchanged(input, i)))
  {
    ChosenIsPick(input, now);
    PickIsBest(input.rows, Rank(input.prefer), EligibleAt(input, now));
    FromIsFirst(input.rows, input.current);
    if k :| 0 <= k < |input.rows| && Some(input.rows[k].provider) == input.current {
      SomeIsFrom(input.rows, input.current, k);
    }
  }

  /** The row the node runs on is known, and moving to row `i` does not lose the means to enforce a level. */
  ghost predicate Unchanged(input: Input, i: nat)
    requires i < |input.rows|
  {
    exists k: nat :: IsFrom(input.rows, input.current, k) && MediationUnchanged(input.rows[k].row, input.rows[i].row)
  }

  lemma {:induction false} SomeIsFrom(rows: seq<Probed>, current: Option<Provider>, k: nat)
    requires k < |rows| && Some(rows[k].provider) == current
    ensures exists j: nat :: IsFrom(rows, current, j)
  {
    if j: nat :| j < k && Some(rows[j].provider) == current {
      SomeIsFrom(rows, current, j);
    } else {
      assert IsFrom(rows, current, k);
    }
  }

  /** Why a node is put to sleep: nothing else is probed, all else is limited, or none that is not
      limited can do what is asked. */
  lemma {:induction false} SuspensionIsExplained(input: Input, now: int)
    requires ChooseQuotaRoute(input, now).Suspend?
    ensures var why := ChooseQuotaRoute(input, now).why;
            && (why == NothingElseProbed <==> forall k | 0 <= k < |input.rows| :: !Other(input, input.rows[k]))
            && (why == NoneCapable <==>
                  exists k :: && 0 <= k < |input.rows| && Other(input, input.rows[k])
                              && Healthy(input, input.rows[k], now))
  {
    var other, healthy := OtherIn(input), HealthyAt(input, now);
    var others := Filter(input.rows, other);
    FilterHolds(input.rows, other);
    SortSorts(others, Rank(input.prefer));
    var candidates := OrderedCandidates(input);
    FilterHolds(candidates, healthy);
    if candidates != [] { assert candidates[0] in candidates; }
    if Filter(candidates, healthy) != [] { assert Filter(candidates, healthy)[0] in Filter(candidates, healthy); }
    forall k | 0 <= k < |input.rows| && Other(input, input.rows[k])
      ensures input.rows[k] in candidates
    {
      assert input.rows[k] in others;
    }
  }

  lemma {:induction false} HealthLasts(input: Input, p: Probed, now: int, later: int)
    requires now <= later && Healthy(input, p, now)
    ensures Healthy(input, p, later)
  {
  }

  /** A re-route available at one time stays available at every later time, to the same row or to a
      better one. */
  lemma {:induction false} RouteOnlyImproves(input: Input, now: int, later: int, i: nat)
    requires now <= later && Best(input.rows, Rank(input.prefer), EligibleAt(input, now), i)
    ensures ChooseQuotaRoute(input, later).Reroute?
    ensures exists j: nat ::
              && Best(input.rows, Rank(input.prefer), EligibleAt(input, later), j)
              && input.rows[j].provider == ChooseQuotaRoute(input, later).provider
              && (Rank(input.prefer)(input.rows[j]) < Rank(input.prefer)(input.rows[i])
                  || (Rank(input.prefer)(input.rows[j]) == Rank(input.prefer)(input.rows[i]) && j <= i))
  {
    RouteIsBest(input, later);
    forall k | 0 <= k < |input.rows| && Eligible(input, input.rows[k], now)
      ensures Eligible(input, input.rows[k], later)
    {
      HealthLasts(input, input.rows[k], now, later);
    }
    assert Eligible(input, input.rows[i], later);
    var j: nat :| Best(input.rows, Rank(input.prefer), EligibleAt(input, later), j)
                  && input.rows[j].provider == ChooseQuotaRoute(input, later).provider;
    BestImproves(input.rows, Rank(input.prefer), EligibleAt(input, now), EligibleAt(input, later), i, j);
  }
}
