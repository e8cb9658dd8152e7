/** What this machine can run (provider-install.ts): the routes of a provider, the picker's rows, and
    the admission of a run, which must agree with each other. */
module ProviderInstall {
  import opened Options
  import opened StableSort

  datatype State = NotInstalled | AdapterMissing | Installed | HandshakeFailed

  datatype Resolution = Resolution(
    provider: string, state: State, vendorPath: Option<string>, adapterPath: Option<string>,
    bundled: bool, disabled: bool)

  datatype Turn = Framing | Recon | Planner | NodeExecution

  datatype Route = Acp | Shim

  /** Which routes are open. */
  datatype Routes = Routes(acp: bool, shim: bool)

  const ALL_TURNS := [Framing, Recon, Planner, NodeExecution]

  function TurnRoute(t: Turn): Route { if t.NodeExecution? then Acp else Shim }

  predicate IsOpen(routes: Routes, route: Route) { if route.Acp? then routes.acp else routes.shim }

  /** A disabled provider has no route; the ACP route needs both binaries and a working bridge. */
  function ProviderRoutes(r: Resolution): Routes {
    if r.disabled then Routes(false, false)
    else
      var shim := r.vendorPath.Some?;
      Routes(r.adapterPath.Some? && shim && !r.state.HandshakeFailed?, shim)
  }

  function TurnsServedBy(routes: Routes): seq<Turn> { Filter(ALL_TURNS, (t: Turn) => IsOpen(routes, TurnRoute(t))) }

  function UnservedTurns(routes: Routes): seq<Turn> { Filter(ALL_TURNS, (t: Turn) => !IsOpen(routes, TurnRoute(t))) }

  predicate HasUsableRoute(r: Resolution) { |TurnsServedBy(ProviderRoutes(r))| > 0 }

  function RouteForNextTurn(r: Resolution): Option<Route> {
    var served := TurnsServedBy(ProviderRoutes(r));
    if served == [] then None else Some(TurnRoute(served[0]))
  }

  function BinaryForRoute(r: Resolution, route: Route): Option<string> {
    if route.Acp? then r.adapterPath else r.vendorPath
  }

  lemma {:induction false} FilterAllTurns(keep: Turn -> bool)
    ensures Filter(ALL_TURNS, keep)
         == (if keep(Framing) then [Framing] else []) + (if keep(Recon) then [Recon] else [])
            + (if keep(Planner) then [Planner] else []) + (if keep(NodeExecution) then [NodeExecution] else [])
  {
    assert ALL_TURNS[1..] == [Recon, Planner, NodeExecution];
    assert ALL_TURNS[1..][1..] == [Planner, NodeExecution];
    assert ALL_TURNS[1..][1..][1..] == [NodeExecution];
    assert ALL_TURNS[1..][1..][1..][1..] == [];
  }

  /** A provider serves every turn, or all but node execution, or none: with an ACP route goes a shim
      route, and a usable provider always takes its next turn on the shim. */
  lemma {:induction false} WhatIsServed(r: Resolution)
    ensures var routes := ProviderRoutes(r);
            && (HasUsableRoute(r) <==> !r.disabled && r.vendorPath.Some?)
            && (HasUsableRoute(r) ==> RouteForNextTurn(r) == Some(Shim))
            && UnservedTurns(routes) == (if routes.acp then [] else if routes.shim then [NodeExecution] else ALL_TURNS)
            && (RouteForNextTurn(r).None? <==> !HasUsableRoute(r))
  {
    var routes := ProviderRoutes(r);
    FilterAllTurns((t: Turn) => IsOpen(routes, TurnRoute(t)));
    FilterAllTurns((t: Turn) => !IsOpen(routes, TurnRoute(t)));
  }

  // ---------- The order of preference ----------

  function Real(rs: seq<Resolution>): seq<Resolution> { Filter(rs, (r: Resolution) => !r.bundled) }

  function Bundled(rs: seq<Resolution>): seq<Resolution> { Filter(rs, (r: Resolution) => r.bundled) }

  function UsableProviders(rs: seq<Resolution>): seq<Resolution> {
    var usable := Filter(rs, (r: Resolution) => HasUsableRoute(r));
    Real(usable) + Bundled(usable)
  }

  lemma {:induction false} UsableAre(rs: seq<Resolution>, r: Resolution)
    ensures r in UsableProviders(rs) <==> r in rs && HasUsableRoute(r)
  {
    var usable := Filter(rs, (r: Resolution) => HasUsableRoute(r));
    FilterHolds(rs, (r: Resolution) => HasUsableRoute(r));
    FilterHolds(usable, (r: Resolution) => !r.bundled);
    FilterHolds(usable, (r: Resolution) => r.bundled);
  }

  /** Bundled agents come first only where nothing else is usable. */
  lemma {:induction false} BundledOnlyAlone(rs: seq<Resolution>)
    ensures var usable := UsableProviders(rs);
            usable != [] && usable[0].bundled ==> forall r :: r in rs && HasUsableRoute(r) ==> r.bundled
  {
    var usable := Filter(rs, (r: Resolution) => HasUsableRoute(r));
    FilterHolds(rs, (r: Resolution) => HasUsableRoute(r));
    FilterHolds(usable, (r: Resolution) => !r.bundled);
    if Real(usable) != [] { assert Real(usable)[0] in Real(usable); }
  }

  /** The first of those kept is the first in the list to be kept. */
  lemma {:induction false} FirstKept(rs: seq<Resolution>, keep: Resolution -> bool)
    requires Filter(rs, keep) != []
    ensures exists i: nat :: IsFirst(rs, keep, i) && rs[i] == Filter(rs, keep)[0]
    decreases |rs|
  {
    if keep(rs[0]) {
      assert IsFirst(rs, keep, 0);
    } else {
      FirstKept(rs[1..], keep);
      var i: nat :| IsFirst(rs[1..], keep, i) && rs[1..][i] == Filter(rs[1..], keep)[0];
      assert forall j | 0 < j < |rs| :: rs[j] == rs[1..][j - 1];
      assert IsFirst(rs, keep, i + 1);
    }
  }

  predicate IsFirst(rs: seq<Resolution>, keep: Resolution -> bool, i: nat) {
    i < |rs| && keep(rs[i]) && forall j | 0 <= j < i :: !keep(rs[j])
  }

  /** A run goes to the first usable provider that is not bundled, and where there is none to the first usable one. */
  lemma {:induction false} UsableIsFirst(rs: seq<Resolution>)
    requires UsableProviders(rs) != []
    ensures var can := (r: Resolution) => HasUsableRoute(r);
            var own := (r: Resolution) => HasUsableRoute(r) && !r.bundled;
            if exists r :: r in rs && own(r)
            then exists i: nat :: IsFirst(rs, own, i) && UsableProviders(rs)[0] == rs[i]
            else exists i: nat :: IsFirst(rs, can, i) && UsableProviders(rs)[0] == rs[i]
  {
    var can, own := (r: Resolution) => HasUsableRoute(r), (r: Resolution) => HasUsableRoute(r) && !r.bundled;
    FilterTwice(rs, can, (r: Resolution) => !r.bundled, own);
    FilterHolds(rs, own);
    if Filter(rs, own) != [] {
      assert Filter(rs, own)[0] in Filter(rs, own);
      FirstKept(rs, own);
    } else {
      AllBundled(rs);
      FirstKept(rs, can);
    }
  }

  lemma {:induction false} AllBundled(rs: seq<Resolution>)
    requires Real(Filter(rs, (r: Resolution) => HasUsableRoute(r))) == []
    ensures UsableProviders(rs) == Filter(rs, (r: Resolution) => HasUsableRoute(r))
  {
    KeepsAll(Filter(rs, (r: Resolution) => HasUsableRoute(r)));
  }

  lemma {:induction false} KeepsAll(rs: seq<Resolution>)
    requires Real(rs) == []
    ensures Real(rs) + Bundled(rs) == rs
    decreases |rs|
  {
    if rs != [] { KeepsAll(rs[1..]); }
  }

  // ---------- The picker ----------

  /** A row of the picker; `limitation` is the turns it cannot serve, where it serves some. */
  datatype PickerRow = PickerRow(
    id: string, available: bool, route: Option<Route>, routes: Routes, limitation: seq<Turn>)

  /** `renderRouteLimitation`, as the turns it names. */
  function Limitation(r: Resolution): seq<Turn> { UnservedTurns(ProviderRoutes(r)) }

  /** The resolutions in the order of the picker's rows. */
  function Ordered(rs: seq<Resolution>): seq<Resolution> {
    var usable := UsableProviders(rs);
    usable + Filter(rs, (r: Resolution) => r !in usable)
  }

  function RowOf(r: Resolution, available: bool): PickerRow {
    PickerRow(r.provider, available, RouteForNextTurn(r), ProviderRoutes(r), Limitation(r))
  }

  function ProviderOptions(rs: seq<Resolution>): (options: seq<PickerRow>)
    ensures |options| == |Ordered(rs)|
  {
    var usable, ordered := UsableProviders(rs), Ordered(rs);
    seq(|ordered|, k requires 0 <= k < |ordered| => RowOf(ordered[k], ordered[k] in usable))
  }

  /** Nothing is left out of the picker and nothing added. */
  lemma {:induction false} OptionsArePermutation(rs: seq<Resolution>)
    ensures multiset(Ordered(rs)) == multiset(rs)
  {
    var can := (r: Resolution) => HasUsableRoute(r);
    var usable, listed := Filter(rs, can), UsableProviders(rs);
    forall r ensures r in listed <==> r in rs && HasUsableRoute(r) { UsableAre(rs, r); }
    FilterSplits(usable, (r: Resolution) => !r.bundled, (r: Resolution) => r.bundled);
    DropUsable(rs, (r: Resolution) => r !in listed);
    FilterSplits(rs, can, (r: Resolution) => !HasUsableRoute(r));
  }

  /** The available rows are exactly the usable providers, and they come first. */
  lemma {:induction false} AvailableComeFirst(rs: seq<Resolution>, k: nat)
    requires k < |Ordered(rs)|
    ensures var row, r := ProviderOptions(rs)[k], Ordered(rs)[k];
            && r in rs && row.id == r.provider
            && (row.available <==> HasUsableRoute(r)) && (row.available <==> k < |UsableProviders(rs)|)
  {
    var listed := UsableProviders(rs);
    var r := Ordered(rs)[k];
    UsableAre(rs, r);
    if k < |listed| {
      assert r in listed;
    } else {
      FilterHolds(rs, (r: Resolution) => r !in listed);
      assert r in Filter(rs, (r: Resolution) => r !in listed);
    }
  }

  lemma {:induction false} DropUsable(rs: seq<Resolution>, rest: Resolution -> bool)
    requires forall r :: r in rs ==> rest(r) == !HasUsableRoute(r)
    ensures Filter(rs, rest) == Filter(rs, (r: Resolution) => !HasUsableRoute(r))
    decreases |rs|
  {
    if rs != [] {
      assert rs == [rs[0]] + rs[1..];
      DropUsable(rs[1..], rest);
    }
  }

  // ---------- Admission ----------

  datatype Chosen = Chosen(provider: string, route: Route, binaryPath: string, unserved: seq<Turn>)

  /** A refusal is over some resolutions, and says whether one of them has a broken bridge. */
  datatype Admission =
    | Admitted(chosen: Option<Chosen>, limitation: seq<Turn>)
    | Refused(over: seq<Resolution>, handshakeFailed: bool)

  function Refuse(over: seq<Resolution>): Admission {
    Refused(over, exists r :: r in over && r.state.HandshakeFailed?)
  }

  function ChooseFrom(r: Resolution): Option<Chosen> {
    var route := RouteForNextTurn(r);
    if route.None? || BinaryForRoute(r, route.value).None? then None
    else Some(Chosen(r.provider, route.value, BinaryForRoute(r, route.value).value, UnservedTurns(ProviderRoutes(r))))
  }

  function AdmitNamed(rs: seq<Resolution>, name: string): Admission {
    var named := Filter(rs, (r: Resolution) => r.provider == name);
    if named == [] || !HasUsableRoute(named[0]) then Refuse(named)
    else if Limitation(named[0]) != [] then Refuse(named)
    else Admitted(ChooseFrom(named[0]), [])
  }

  function AdmitRun(rs: seq<Resolution>, requested: Option<string>): Admission {
    if requested.Some? then AdmitNamed(rs, requested.value)
    else
      var usable := UsableProviders(rs);
      if usable == [] then Refuse(rs) else Admitted(ChooseFrom(usable[0]), Limitation(usable[0]))
  }

  lemma {:induction false} UsableIsChosen(r: Resolution)
    requires HasUsableRoute(r)
    ensures !r.disabled && r.vendorPath.Some? && RouteForNextTurn(r) == Some(Shim)
    ensures ChooseFrom(r) == Some(Chosen(r.provider, Shim, r.vendorPath.value, Limitation(r)))
  {
    WhatIsServed(r);
  }

  /** The picker and admission agree: the first row is available exactly where a run that names no
      provider is admitted, and then it shows the provider, the route and the limitation the run
      gets. A disabled provider is never what is chosen, and a bundled one only where nothing else is
      usable. */
  lemma {:induction false} PickerAgreesWithAdmission(rs: seq<Resolution>)
    ensures var options, a := ProviderOptions(rs), AdmitRun(rs, None);
            && (a.Admitted? <==> options != [] && options[0].available)
            && (a.Admitted? ==>
                  && a.chosen.Some? && a.limitation == a.chosen.value.unserved
                  && options[0].id == a.chosen.value.provider && options[0].route == Some(a.chosen.value.route)
                  && options[0].limitation == a.limitation
                  && exists r :: r in rs && r.provider == a.chosen.value.provider && !r.disabled
                                 && r.vendorPath == Some(a.chosen.value.binaryPath)
                                 && (r.bundled ==> forall o :: o in rs && HasUsableRoute(o) ==> o.bundled))
  {
    var usable := UsableProviders(rs);
    BundledOnlyAlone(rs);
    if ProviderOptions(rs) != [] { AvailableComeFirst(rs, 0); }
    if usable != [] {
      UsableAre(rs, usable[0]);
      UsableIsChosen(usable[0]);
      assert Ordered(rs)[0] == usable[0];
    }
  }

  lemma {:induction false} UsableHere(rs: seq<Resolution>, r: Resolution)
    ensures r in UsableProviders(rs) <==> r in rs && !r.disabled && r.vendorPath.Some?
  {
    UsableAre(rs, r);
    WhatIsServed(r);
  }

  /** A run that names no provider is refused exactly where every provider is disabled or without its
      vendor's CLI, and then over all of them. */
  lemma {:induction false} WhenRefused(rs: seq<Resolution>)
    ensures AdmitRun(rs, None).Refused? <==> forall r | r in rs :: r.disabled || r.vendorPath.None?
    ensures AdmitRun(rs, None).Refused? ==> AdmitRun(rs, None).over == rs
  {
    var usable := UsableProviders(rs);
    if usable != [] {
      UsableHere(rs, usable[0]);
    }
    forall r | r in rs && r !in usable ensures r.disabled || r.vendorPath.None? { UsableHere(rs, r); }
  }

  /** The refusal of a named provider speaks of the resolutions of that name and of no others. */
  lemma {:induction false} NamedRefusal(rs: seq<Resolution>, name: string)
    ensures var a := AdmitRun(rs, Some(name)); a.Refused? ==> forall r :: r in a.over <==> r in rs && r.provider == name
  {
    FilterHolds(rs, (r: Resolution) => r.provider == name);
  }

  lemma {:induction false} NamedAre(rs: seq<Resolution>, name: string)
    ensures var named := Filter(rs, (r: Resolution) => r.provider == name); named != [] ==> named[0].provider == name
  {
    var named := Filter(rs, (r: Resolution) => r.provider == name);
    FilterHolds(rs, (r: Resolution) => r.provider == name);
    if named != [] { assert named[0] in named; }
  }

  predicate ServesAll(r: Resolution) {
    !r.disabled && r.vendorPath.Some? && r.adapterPath.Some? && !r.state.HandshakeFailed?
  }

  lemma {:induction false} AllIsServed(r: Resolution)
    ensures ServesAll(r) <==> HasUsableRoute(r) && Limitation(r) == []
    ensures ServesAll(r) ==> ChooseFrom(r) == Some(Chosen(r.provider, Shim, r.vendorPath.value, []))
  {
    WhatIsServed(r);
  }

  /** A provider named explicitly is admitted only as itself, with every turn served; and that is
      exactly when it is: the first resolution of that name has both binaries, answers the handshake
      and is not disabled. */
  lemma {:induction false} NamedIsHonouredExactly(rs: seq<Resolution>, name: string)
    ensures var named, a := Filter(rs, (r: Resolution) => r.provider == name), AdmitRun(rs, Some(name));
            && (a.Admitted? <==> named != [] && ServesAll(named[0]))
            && (a.Admitted? ==>
                  a.chosen == Some(Chosen(name, Shim, named[0].vendorPath.value, [])) && a.limitation == [])
  {
    var named := Filter(rs, (r: Resolution) => r.provider == name);
    NamedAre(rs, name);
    if named != [] { AllIsServed(named[0]); }
  }
}
