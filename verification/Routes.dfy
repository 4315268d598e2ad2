/** Model namespaces and reasoning-effort routes (the routing part of server.go, and validateACPID). */
module Routes {
  import opened Types
  import opened Spaces
  import opened Collecting
  import opened StreamCollector

  datatype Details = Details(name: string, contextWindow: int, maxTokens: int)

  datatype ModelInfo = ModelInfo(id: string, name: string, aliases: seq<string>)

  datatype Variant = Variant(effort: string, modelID: string)

  datatype Route = Route(
    engineID: string,
    backendModel: string,
    effectiveIDs: seq<string>,
    variants: seq<Variant>,
    selectedEffort: string,
    details: Details)

  predicate HasChar(s: string, c: char) {
    exists i | 0 <= i < |s| :: s[i] == c
  }

  predicate NoBrackets(s: string) {
    !HasChar(s, '[') && !HasChar(s, ']')
  }

  function LastIndex(s: string, c: char): (i: int)
    ensures -1 <= i < |s|
    ensures i >= 0 ==> s[i] == c
    ensures forall j | i < j < |s| :: s[j] != c
  {
    if s == "" then -1
    else if s[|s| - 1] == c then |s| - 1
    else LastIndex(s[..|s| - 1], c)
  }

  /** A model id of the form base[effort]. */
  function SplitEffort(id: string): Option<(string, string)> {
    if id == "" || id[|id| - 1] != ']' then None
    else
      var open := LastIndex(id, '[');
      if open <= 0 || open == |id| - 2 then None
      else
        var base, effort := id[..open], id[open + 1..|id| - 1];
        if !NoBrackets(base) || !NoBrackets(effort) || TrimSpace(effort) == "" then None
        else Some((base, effort))
  }

  function JoinEffort(base: string, effort: string): string {
    base + "[" + effort + "]"
  }

  predicate EffortParts(base: string, effort: string) {
    base != "" && NoBrackets(base) && NoBrackets(effort) && !Blank(effort)
  }

  /** Splitting and joining undo each other, and nothing else splits. */
  lemma SplitJoinRoundTrip(id: string, base: string, effort: string)
    ensures SplitEffort(id) == Some((base, effort)) <==> id == JoinEffort(base, effort) && EffortParts(base, effort)
  {
    TrimmedAway(effort);
    if SplitEffort(id) == Some((base, effort)) {
      var open := LastIndex(id, '[');
      assert id == id[..open] + [id[open]] + id[open + 1..|id| - 1] + [id[|id| - 1]];
    }
    if id == JoinEffort(base, effort) && EffortParts(base, effort) {
      var n := |base|;
      assert id[..n] == base && id[n] == '[' && id[n + 1..|id| - 1] == effort && id[|id| - 1] == ']';
      var open := LastIndex(id, '[');
      assert forall i | n < i < |id| :: id[i] != '[' by {
        assert forall i | 0 <= i < |effort| :: id[n + 1 + i] == effort[i] && effort[i] != '[';
        assert forall i | n < i < |id| - 1 :: id[i] == effort[i - n - 1];
      }
      assert open == n;
    }
  }

  // groupedBracketRoutes.

  function BaseOf(modelID: string): string {
    match SplitEffort(modelID)
    case Some((base, _)) => base
    case None => modelID
  }

  function TrimSuffix(s: string, suffix: string): string {
    if |suffix| <= |s| && s[|s| - |suffix|..] == suffix then s[..|s| - |suffix|] else s
  }

  function DisplayName(base: Details, m: ModelInfo, effort: Option<(string, string)>): string {
    var trimmed := TrimSpace(m.name);
    var bare := if effort.Some? then TrimSuffix(trimmed, " (" + effort.value.1 + ")") else trimmed;
    var name := if bare == "" then BaseOf(TrimSpace(m.id)) else bare;
    if base.name != "" then base.name + " \U{B7} " + name else name
  }

  function NewRoute(engineID: string, base: Details, m: ModelInfo): Route {
    var modelID := TrimSpace(m.id);
    var split := SplitEffort(modelID);
    Route(engineID, BaseOf(modelID), if split.None? then [modelID] + m.aliases else [], [], "",
          base.(name := DisplayName(base, m, split)))
  }

  predicate HasEffort(variants: seq<Variant>, effort: string) {
    exists i | 0 <= i < |variants| :: variants[i].effort == effort
  }

  function SetVariant(variants: seq<Variant>, effort: string, modelID: string): seq<Variant> {
    if variants == [] then [Variant(effort, modelID)]
    else if variants[0].effort == effort then [Variant(effort, modelID)] + variants[1..]
    else [variants[0]] + SetVariant(variants[1..], effort, modelID)
  }

  function RouteKey(engineID: string, model: string): string {
    engineID + "/" + model
  }

  function AddModel(routes: map<string, Route>, engineID: string, base: Details, m: ModelInfo): map<string, Route> {
    var modelID := TrimSpace(m.id);
    if modelID == "" then routes
    else
      var split, key := SplitEffort(modelID), RouteKey(engineID, BaseOf(modelID));
      var route := if key in routes && routes[key].variants != [] then routes[key] else NewRoute(engineID, base, m);
      routes[key := if split.Some?
        then route.(variants := SetVariant(route.variants, split.value.1, modelID)) else route]
  }

  function Group(engineID: string, base: Details, models: seq<ModelInfo>): map<string, Route> {
    if models == [] then map[]
    else AddModel(Group(engineID, base, models[..|models| - 1]), engineID, base, models[|models| - 1])
  }

  /** The variant loop: replace in place, or append. */
  method UpdateVariants(variants: seq<Variant>, effort: string, modelID: string) returns (r: seq<Variant>)
    ensures r == SetVariant(variants, effort, modelID)
  {
    r := variants;
    for i := 0 to |variants|
      invariant r == variants
      invariant forall j | 0 <= j < i :: variants[j].effort != effort
      invariant SetVariant(variants, effort, modelID) == variants[..i] + SetVariant(variants[i..], effort, modelID)
    {
      assert variants[i..][0] == variants[i] && variants[i..][1..] == variants[i + 1..];
      if variants[i].effort == effort {
        r := variants[i := Variant(effort, modelID)];
        assert r == variants[..i] + ([Variant(effort, modelID)] + variants[i + 1..]);
        return;
      }
      assert variants[..i] + ([variants[i]] + SetVariant(variants[i + 1..], effort, modelID))
          == variants[..i + 1] + SetVariant(variants[i + 1..], effort, modelID);
    }
    r := r + [Variant(effort, modelID)];
    assert variants[..|variants|] == variants && variants[|variants|..] == [];
  }

  method GroupedBracketRoutes(engineID: string, base: Details,
                              models: seq<ModelInfo>) returns (routes: map<string, Route>)
    ensures routes == Group(engineID, base, models)
  {
    hide SplitEffort, TrimSpace, SetVariant;
    routes := map[];
    for n := 0 to |models|
      invariant routes == Group(engineID, base, models[..n])
    {
      var model := models[n];
      assert models[..n + 1][..n] == models[..n];
      var modelID := TrimSpace(model.id);
      if modelID == "" {
        continue;
      }
      var split := SplitEffort(modelID);
      var baseID := if split.None? then modelID else split.value.0;
      var id := engineID + "/" + baseID;
      var route;
      if id in routes && |routes[id].variants| > 0 {
        route := routes[id];
      } else {
        var name := TrimSpace(model.name);
        if split.Some? {
          name := TrimSuffix(name, " (" + split.value.1 + ")");
        }
        if name == "" {
          name := baseID;
        }
        if base.name != "" {
          name := base.name + " \U{B7} " + name;
        }
        route := Route(engineID, baseID, if split.None? then [modelID] + model.aliases else [], [], "",
          base.(name := name));
      }
      if split.Some? {
        var variants := UpdateVariants(route.variants, split.value.1, modelID);
        route := route.(variants := variants);
      }
      routes := routes[id := route];
    }
    assert models[..|models|] == models;
  }

  // What grouping promises.

  /** The catalogue names base with this effort. */
  ghost predicate Lists(models: seq<ModelInfo>, base: string, effort: string) {
    exists m | m in models :: SplitEffort(TrimSpace(m.id)) == Some((base, effort))
  }

  ghost predicate Names(models: seq<ModelInfo>, base: string) {
    exists m | m in models :: TrimSpace(m.id) != "" && BaseOf(TrimSpace(m.id)) == base
  }

  /** The efforts the catalogue lists for a base, in order of first occurrence. */
  function EffortsOf(models: seq<ModelInfo>, base: string): seq<string> {
    if models == [] then []
    else
      var before := EffortsOf(models[..|models| - 1], base);
      match SplitEffort(TrimSpace(models[|models| - 1].id))
      case Some((b, effort)) => if b == base && effort !in before then before + [effort] else before
      case None => before
  }

  function Efforts(route: Route): seq<string> {
    seq(|route.variants|, i requires 0 <= i < |route.variants| => route.variants[i].effort)
  }

  ghost predicate Distinct(efforts: seq<string>) {
    forall a, b :: 0 <= a < b < |efforts| ==> efforts[a] != efforts[b]
  }

  /** Every variant's model id is rebuilt from base and effort, and its route is keyed by engine and base. */
  ghost predicate RouteSound(engineID: string, key: string, route: Route) {
    && route.engineID == engineID && key == RouteKey(engineID, route.backendModel)
    && forall v | v in route.variants :: v.modelID == JoinEffort(route.backendModel, v.effort)
  }

  lemma {:induction false} SetVariantEfforts(variants: seq<Variant>, effort: string, modelID: string, base: string)
    requires modelID == JoinEffort(base, effort)
    requires forall v | v in variants :: v.modelID == JoinEffort(base, v.effort)
    ensures var r := SetVariant(variants, effort, modelID);
      && (forall v | v in r :: v.modelID == JoinEffort(base, v.effort))
      && r == if HasEffort(variants, effort) then variants else variants + [Variant(effort, modelID)]
  {
    hide JoinEffort;
    if variants != [] {
      if variants[0].effort == effort {
        assert variants[0] in variants;
        assert [Variant(effort, modelID)] + variants[1..] == variants;
      } else {
        SetVariantEfforts(variants[1..], effort, modelID, base);
        assert variants == [variants[0]] + variants[1..];
        assert HasEffort(variants[1..], effort) <==> HasEffort(variants, effort) by {
          if i :| 0 <= i < |variants[1..]| && variants[1..][i].effort == effort {
            assert variants[i + 1].effort == effort;
          }
          if j :| 0 <= j < |variants| && variants[j].effort == effort {
            assert variants[1..][j - 1].effort == effort;
          }
        }
      }
    }
  }

  /** A route of the grouped catalogue, against the catalogue itself. */
  ghost predicate GroupedSoundly(engineID: string, models: seq<ModelInfo>, routes: map<string, Route>) {
    && (forall key | key in routes :: RouteSound(engineID, key, routes[key]))
    && (forall base :: RouteKey(engineID, base) in routes <==> Names(models, base))
    && (forall base | RouteKey(engineID, base) in routes ::
          Efforts(routes[RouteKey(engineID, base)]) == EffortsOf(models, base))
  }

  lemma KeysDiffer(engineID: string, a: string, b: string)
    ensures RouteKey(engineID, a) == RouteKey(engineID, b) <==> a == b
  {
    var prefix := engineID + "/";
    assert RouteKey(engineID, a)[|prefix|..] == a && RouteKey(engineID, b)[|prefix|..] == b;
  }

  lemma {:induction false} UnlistedHasNoEfforts(models: seq<ModelInfo>, base: string)
    ensures EffortsOf(models, base) != [] ==> Names(models, base)
  {
    if models != [] {
      var init, m := models[..|models| - 1], models[|models| - 1];
      assert models == init + [m];
      UnlistedHasNoEfforts(init, base);
      if EffortsOf(init, base) == [] && EffortsOf(models, base) != [] {
        assert m in models && TrimSpace(m.id) != "";
      } else if Names(init, base) {
        var x :| x in init && TrimSpace(x.id) != "" && BaseOf(TrimSpace(x.id)) == base;
        assert x in models;
      }
    }
  }

  lemma NamesGrow(init: seq<ModelInfo>, m: ModelInfo, base: string)
    ensures Names(init + [m], base) <==> Names(init, base) || (TrimSpace(m.id) != "" && BaseOf(TrimSpace(m.id)) == base)
  {
    hide TrimSpace, BaseOf;
    if Names(init, base) {
      var x :| x in init && TrimSpace(x.id) != "" && BaseOf(TrimSpace(x.id)) == base;
      assert x in init + [m];
    }
    assert m in init + [m];
  }

  /** One more model: its route gains the effort if it is new; every other route stays. */
  lemma AddModelIsSound(engineID: string, base: Details, init: seq<ModelInfo>, m: ModelInfo, routes: map<string, Route>)
    requires GroupedSoundly(engineID, init, routes)
    ensures GroupedSoundly(engineID, init + [m], AddModel(routes, engineID, base, m))
  {
    hide TrimSpace, SplitEffort, JoinEffort, SetVariant, DisplayName, Names, RouteKey, EffortsOf, Efforts;
    var models, routes', modelID := init + [m], AddModel(routes, engineID, base, m), TrimSpace(m.id);
    var b, split := BaseOf(modelID), SplitEffort(modelID);
    var key := RouteKey(engineID, b);
    if modelID != "" {
      var route := if key in routes && routes[key].variants != [] then routes[key] else NewRoute(engineID, base, m);
      if key in routes {
        KeysDiffer(engineID, routes[key].backendModel, b);
      }
      if split.Some? {
        SplitJoinRoundTrip(modelID, b, split.value.1);
        SetVariantEfforts(route.variants, split.value.1, modelID, b);
      }
      assert RouteSound(engineID, key, routes'[key]);
    }
    forall c
      ensures RouteKey(engineID, c) in routes' <==> Names(models, c)
      ensures RouteKey(engineID, c) in routes' ==> Efforts(routes'[RouteKey(engineID, c)]) == EffortsOf(models, c)
    {
      KeysDiffer(engineID, b, c);
      NamesGrow(init, m, c);
      if modelID != "" && c == b {
        NewEfforts(engineID, base, init, m, routes);
      } else {
        OtherEfforts(init, m, c);
      }
    }
  }

  lemma OtherEfforts(init: seq<ModelInfo>, m: ModelInfo, c: string)
    requires TrimSpace(m.id) == "" || BaseOf(TrimSpace(m.id)) != c
    ensures EffortsOf(init + [m], c) == EffortsOf(init, c)
  {
    assert (init + [m])[..|init|] == init;
  }

  lemma NewEfforts(engineID: string, base: Details, init: seq<ModelInfo>, m: ModelInfo, routes: map<string, Route>)
    requires GroupedSoundly(engineID, init, routes) && TrimSpace(m.id) != ""
    ensures var b := BaseOf(TrimSpace(m.id)); var key := RouteKey(engineID, b);
      Efforts(AddModel(routes, engineID, base, m)[key]) == EffortsOf(init + [m], b)
  {
    hide TrimSpace, SplitEffort, JoinEffort, SetVariant, DisplayName, Names, RouteKey;
    var modelID := TrimSpace(m.id);
    var b, split := BaseOf(modelID), SplitEffort(modelID);
    var key := RouteKey(engineID, b);
    var route := if key in routes && routes[key].variants != [] then routes[key] else NewRoute(engineID, base, m);
    assert (init + [m])[..|init|] == init;
    if key in routes {
      KeysDiffer(engineID, routes[key].backendModel, b);
      assert Efforts(routes[key]) == EffortsOf(init, b);
    } else {
      UnlistedHasNoEfforts(init, b);
    }
    assert Efforts(route) == EffortsOf(init, b);
    if split.Some? {
      var effort := split.value.1;
      SplitJoinRoundTrip(modelID, b, effort);
      SetVariantEfforts(route.variants, effort, modelID, b);
      assert HasEffort(route.variants, effort) <==> effort in Efforts(route) by {
        assert forall i | 0 <= i < |route.variants| :: Efforts(route)[i] == route.variants[i].effort;
      }
    }
  }

  lemma {:induction false} GroupingIsSound(engineID: string, base: Details, models: seq<ModelInfo>)
    ensures GroupedSoundly(engineID, models, Group(engineID, base, models))
  {
    hide AddModel, GroupedSoundly;
    if models == [] {
      EmptyIsSound(engineID);
    } else {
      var init, m := models[..|models| - 1], models[|models| - 1];
      GroupingIsSound(engineID, base, init);
      AddModelIsSound(engineID, base, init, m, Group(engineID, base, init));
      assert models == init + [m];
    }
  }

  lemma EmptyIsSound(engineID: string)
    ensures GroupedSoundly(engineID, [], map[])
  {
  }

  /** First-occurrence lists hold each listed effort once. */
  lemma {:induction false} EffortsAreTheListed(models: seq<ModelInfo>, base: string)
    ensures Distinct(EffortsOf(models, base))
    ensures forall effort :: effort in EffortsOf(models, base) <==> Lists(models, base, effort)
  {
    hide TrimSpace, SplitEffort;
    if models != [] {
      var init, m := models[..|models| - 1], models[|models| - 1];
      EffortsAreTheListed(init, base);
      assert models == init + [m];
      forall effort
        ensures Lists(models, base, effort) <==>
          Lists(init, base, effort) || SplitEffort(TrimSpace(m.id)) == Some((base, effort))
      {
        if Lists(init, base, effort) {
          var x :| x in init && SplitEffort(TrimSpace(x.id)) == Some((base, effort));
          assert x in models;
        }
        assert m in models;
      }
    }
  }

  /** The order of the catalogue changes neither the routes' keys nor the efforts each offers. */
  lemma CatalogueOrderIsIrrelevant(engineID: string, base: Details, s: seq<ModelInfo>, t: seq<ModelInfo>)
    requires forall m :: m in s <==> m in t
    ensures Group(engineID, base, s).Keys == Group(engineID, base, t).Keys
    ensures forall key | key in Group(engineID, base, s) :: forall effort ::
      effort in Efforts(Group(engineID, base, s)[key]) <==> effort in Efforts(Group(engineID, base, t)[key])
  {
    hide Group, TrimSpace, SplitEffort, EffortsOf, Efforts, BaseOf;
    GroupingIsSound(engineID, base, s);
    GroupingIsSound(engineID, base, t);
    var a, b := Group(engineID, base, s), Group(engineID, base, t);
    forall key
      ensures key in a <==> key in b
      ensures key in a && key in b ==> forall effort :: effort in Efforts(a[key]) <==> effort in Efforts(b[key])
    {
      if key in a {
        SameRoute(engineID, s, t, key, a, b);
      }
      if key in b {
        SameRoute(engineID, t, s, key, b, a);
      }
    }
  }

  lemma SameRoute(engineID: string, s: seq<ModelInfo>, t: seq<ModelInfo>, key: string, a: map<string, Route>,
                  b: map<string, Route>)
    requires forall m :: m in s <==> m in t
    requires GroupedSoundly(engineID, s, a) && GroupedSoundly(engineID, t, b) && key in a
    ensures key in b && forall effort :: effort in Efforts(a[key]) <==> effort in Efforts(b[key])
  {
    hide TrimSpace, SplitEffort, EffortsOf, Efforts, BaseOf;
    var base := a[key].backendModel;
    assert RouteSound(engineID, key, a[key]);
    assert Names(s, base) && Names(t, base);
    EffortsAreTheListed(s, base);
    EffortsAreTheListed(t, base);
    assert forall effort :: Lists(s, base, effort) <==> Lists(t, base, effort);
  }

  // selectReasoningEffort.

  function FindVariant(variants: seq<Variant>, effort: string): Option<Variant> {
    if variants == [] then None
    else if variants[0].effort == effort then Some(variants[0])
    else FindVariant(variants[1..], effort)
  }

  function SelectReasoningEffort(route: Route, requested: string): Result<Route> {
    if route.variants != [] then
      var effort := if requested == "" then route.variants[0].effort else requested;
      match FindVariant(route.variants, effort)
      case Some(v) =>
        Ok(route.(effectiveIDs := [route.backendModel, v.modelID], selectedEffort := effort, backendModel := v.modelID))
      case None => Err
    else if requested != "" then Err
    else Ok(route)
  }

  lemma {:induction false} FindsListed(variants: seq<Variant>, effort: string)
    ensures FindVariant(variants, effort).Some? <==> HasEffort(variants, effort)
    ensures FindVariant(variants, effort).Some? ==>
      FindVariant(variants, effort).value in variants && FindVariant(variants, effort).value.effort == effort
  {
    if variants != [] && variants[0].effort != effort {
      FindsListed(variants[1..], effort);
      if i :| 0 <= i < |variants| && variants[i].effort == effort {
        assert variants[1..][i - 1].effort == effort;
      }
      if j :| 0 <= j < |variants[1..]| && variants[1..][j].effort == effort {
        assert variants[j + 1].effort == effort;
      }
    }
  }

  /**
   Every advertised effort of a grouped route selects exactly the catalogue's own id for it;
   a request for any other effort is refused, and none picks the first listed.
   */
  lemma SelectedEffortIsListed(engineID: string, base: Details, models: seq<ModelInfo>, key: string, requested: string)
    requires key in Group(engineID, base, models) && Group(engineID, base, models)[key].variants != []
    ensures EffortsOf(models, Group(engineID, base, models)[key].backendModel) != []
    ensures var route := Group(engineID, base, models)[key]; var r := SelectReasoningEffort(route, requested);
      var effort := if requested == "" then EffortsOf(models, route.backendModel)[0] else requested;
      && (r.Ok? <==> Lists(models, route.backendModel, effort))
      && (r.Ok? ==>
            && r.value.backendModel == JoinEffort(route.backendModel, effort) && r.value.selectedEffort == effort
            && r.value.effectiveIDs == [route.backendModel, JoinEffort(route.backendModel, effort)]
            && r.value.engineID == engineID && r.value.variants == route.variants && r.value.details == route.details
            && exists m | m in models :: TrimSpace(m.id) == r.value.backendModel)
  {
    hide Group, TrimSpace, SplitEffort, EffortsOf, BaseOf, JoinEffort;
    GroupingIsSound(engineID, base, models);
    var route := Group(engineID, base, models)[key];
    var b := route.backendModel;
    assert RouteSound(engineID, key, route) && key == RouteKey(engineID, b);
    assert Efforts(route) == EffortsOf(models, b);
    assert Efforts(route)[0] == route.variants[0].effort;
    EffortsAreTheListed(models, b);
    var effort := if requested == "" then route.variants[0].effort else requested;
    FindsListed(route.variants, effort);
    assert HasEffort(route.variants, effort) <==> effort in Efforts(route) by {
      assert forall i | 0 <= i < |route.variants| :: Efforts(route)[i] == route.variants[i].effort;
    }
    if Lists(models, b, effort) {
      var m :| m in models && SplitEffort(TrimSpace(m.id)) == Some((b, effort));
      SplitJoinRoundTrip(TrimSpace(m.id), b, effort);
    }
  }

  /** A route without efforts is served as it is, and refuses every requested effort. */
  lemma NoEffortToSelect(route: Route, requested: string)
    requires route.variants == []
    ensures SelectReasoningEffort(route, requested) == if requested == "" then Ok(route) else Err
  {
  }

  /**
   An agent on a selected route may report its base id or the selected effort's id, or none; on a
   plain route of the catalogue the id or an alias of its model. Any other model is foreign.
   */
  lemma ReportedModelIsKnown(engineID: string, base: Details, models: seq<ModelInfo>, key: string, requested: string,
                             reported: string, resumeID: string)
    requires key in Group(engineID, base, models)
    requires SelectReasoningEffort(Group(engineID, base, models)[key], requested).Ok?
    ensures var route := Group(engineID, base, models)[key];
      var selected := SelectReasoningEffort(route, requested).value;
      Foreign(selected.effectiveIDs, Init(reported, resumeID)) <==>
        && reported != ""
        && if route.variants != []
           then reported !in {route.backendModel, JoinEffort(route.backendModel, selected.selectedEffort)}
           else forall m | m in models && LastNaming(models, m, route.backendModel) ::
             reported != route.backendModel && reported !in m.aliases
  {
    hide Group, TrimSpace, SplitEffort, EffortsOf, JoinEffort, LastNaming, Makes;
    var route := Group(engineID, base, models)[key];
    if route.variants != [] {
      SelectedEffortIsListed(engineID, base, models, key, requested);
    } else {
      NoEffortToSelect(route, requested);
      GroupingIsSound(engineID, base, models);
      assert RouteSound(engineID, key, route);
      var i := RouteIsMadeFrom(engineID, base, models, route.backendModel);
      PlainRouteIsTheLast(models, route.backendModel, i);
      var made := models[i];
      assert made in models && LastNaming(models, made, route.backendModel);
      assert route.effectiveIDs == [route.backendModel] + made.aliases;
    }
  }

  // Where a route's other fields come from.

  predicate MadeFrom(engineID: string, base: Details, m: ModelInfo, route: Route) {
    var id := TrimSpace(m.id);
    && route.engineID == engineID && route.backendModel == BaseOf(id) && route.selectedEffort == ""
    && route.effectiveIDs == (if SplitEffort(id).None? then [id] + m.aliases else [])
    && route.details == base.(name := DisplayName(base, m, SplitEffort(id)))
  }

  predicate NamesBase(m: ModelInfo, b: string) {
    TrimSpace(m.id) != "" && BaseOf(TrimSpace(m.id)) == b
  }

  predicate Bracketed(m: ModelInfo) {
    SplitEffort(TrimSpace(m.id)).Some?
  }

  /** The model a base's route is made from: the first with an effort, or, if none has one, the last. */
  ghost predicate Makes(models: seq<ModelInfo>, b: string, i: nat) {
    && i < |models| && NamesBase(models[i], b)
    && (if Bracketed(models[i]) then forall j | 0 <= j < i && NamesBase(models[j], b) :: !Bracketed(models[j])
        else forall j | 0 <= j < |models| && j != i && NamesBase(models[j], b) :: j < i && !Bracketed(models[j]))
  }

  ghost predicate LastNaming(models: seq<ModelInfo>, m: ModelInfo, b: string) {
    exists i :: 0 <= i < |models| && models[i] == m && NamesBase(m, b)
                && forall j | i < j < |models| :: !NamesBase(models[j], b)
  }

  lemma {:induction false} RouteIsMadeFrom(engineID: string, base: Details, models: seq<ModelInfo>, b: string)
    returns (i: nat)
    requires RouteKey(engineID, b) in Group(engineID, base, models)
    ensures i < |models| && Makes(models, b, i)
    ensures MadeFrom(engineID, base, models[i], Group(engineID, base, models)[RouteKey(engineID, b)])
    ensures Bracketed(models[i]) <==> Group(engineID, base, models)[RouteKey(engineID, b)].variants != []
    decreases |models|
  {
    hide TrimSpace, SplitEffort, DisplayName, RouteKey, BaseOf;
    var n := |models| - 1;
    var init, m, key := models[..n], models[n], RouteKey(engineID, b);
    var before := Group(engineID, base, init);
    assert models == init + [m];
    KeysDiffer(engineID, BaseOf(TrimSpace(m.id)), b);
    if key in before {
      i := RouteIsMadeFrom(engineID, base, init, b);
    }
    NotNamedBefore(engineID, base, init, b);
    if NamesBase(m, b) && !(key in before && before[key].variants != []) {
      i := n;
    }
    SetVariantIsNotEmpty(if key in before then before[key].variants else [], m);
  }

  lemma SetVariantIsNotEmpty(variants: seq<Variant>, m: ModelInfo)
    ensures forall effort, id :: SetVariant(variants, effort, id) != [] && SetVariant([], effort, id) != []
  {
  }

  lemma NotNamedBefore(engineID: string, base: Details, models: seq<ModelInfo>, b: string)
    ensures RouteKey(engineID, b) !in Group(engineID, base, models) ==>
      forall j | 0 <= j < |models| :: !NamesBase(models[j], b)
  {
    hide TrimSpace, SplitEffort, EffortsOf, Efforts, BaseOf, Group, RouteKey;
    GroupingIsSound(engineID, base, models);
    if RouteKey(engineID, b) !in Group(engineID, base, models) {
      forall j | 0 <= j < |models|
        ensures !NamesBase(models[j], b)
      {
        assert models[j] in models;
      }
    }
  }

  lemma PlainRouteIsTheLast(models: seq<ModelInfo>, b: string, i: nat)
    requires Makes(models, b, i) && !Bracketed(models[i])
    ensures forall m | m in models :: LastNaming(models, m, b) <==> m == models[i]
  {
    hide TrimSpace, SplitEffort, BaseOf;
    forall m | m in models
      ensures LastNaming(models, m, b) <==> m == models[i]
    {
      if k :| 0 <= k < |models| && models[k] == m && NamesBase(m, b)
              && forall j | k < j < |models| :: !NamesBase(models[j], b) {
        assert k == i;
      }
      assert forall j | i < j < |models| :: !NamesBase(models[j], b);
    }
  }

  /** The name shown: the model's, without the effort it ends with, or the base id, after the engine's own name. */
  lemma DisplayNameExactly(base: Details, m: ModelInfo, bare: string, effort: Option<(string, string)>)
    requires if effort.Some? && Ends(TrimSpace(m.name), " (" + effort.value.1 + ")")
             then TrimSpace(m.name) == bare + " (" + effort.value.1 + ")" else bare == TrimSpace(m.name)
    ensures DisplayName(base, m, effort) ==
      (if base.name == "" then "" else base.name + " \U{B7} ") + (if bare == "" then BaseOf(TrimSpace(m.id)) else bare)
  {
    hide TrimSpace, BaseOf;
  }

  predicate Ends(s: string, suffix: string) {
    |suffix| <= |s| && s[|s| - |suffix|..] == suffix
  }

  // Namespaces: validateACPID, discoverModels and resolveModel.

  /** validateACPID. */
  predicate ValidEngineID(id: string) {
    id != "" && forall c | c in id :: c !in "/ \t\r\n:"
  }

  lemma ValidIsSlashFree(id: string)
    ensures ValidEngineID(id) ==> !HasChar(id, '/')
    ensures ValidEngineID(id) <==>
      && id != "" && !HasChar(id, '/') && !HasChar(id, ':')
      && !HasChar(id, ' ') && !HasChar(id, '\t') && !HasChar(id, '\r') && !HasChar(id, '\n')
  {
    var refused := "/ \t\r\n:";
    assert refused == ['/', ' ', '\t', '\r', '\n', ':'];
    assert forall c | c in id :: HasChar(id, c);
    assert forall c :: HasChar(id, c) ==> c in id;
    if ValidEngineID(id) {
      assert forall c | c in refused :: !HasChar(id, c);
      assert refused[0] in refused && refused[1] in refused && refused[2] in refused;
      assert refused[3] in refused && refused[4] in refused && refused[5] in refused;
    }
  }

  function FirstIndex(s: string, c: char): (i: int)
    ensures -1 <= i < |s|
    ensures i >= 0 ==> s[i] == c && forall j | 0 <= j < i :: s[j] != c
    ensures i < 0 ==> !HasChar(s, c)
  {
    if s == "" then -1
    else if s[0] == c then 0
    else
      var rest := FirstIndex(s[1..], c);
      assert rest < 0 ==> forall j | 0 <= j < |s[1..]| :: s[1..][j] != c;
      if rest < 0 then -1 else rest + 1
  }

  /** Every route sits under its own engine and base. */
  ghost predicate Keyed(routes: map<string, Route>) {
    forall key | key in routes ::
      key == RouteKey(routes[key].engineID, routes[key].backendModel) && !HasChar(routes[key].engineID, '/')
  }

  function Refreshed(routes: map<string, Route>, engineID: string, update: map<string, Route>): map<string, Route> {
    (map key | key in routes && routes[key].engineID != engineID :: routes[key]) + update
  }

  lemma FirstSegment(engineID: string, model: string)
    requires !HasChar(engineID, '/')
    ensures FirstIndex(RouteKey(engineID, model), '/') == |engineID|
    ensures RouteKey(engineID, model)[..|engineID|] == engineID
    ensures RouteKey(engineID, model)[|engineID| + 1..] == model
  {
    var key := RouteKey(engineID, model);
    assert key[|engineID|] == '/';
    assert forall j | 0 <= j < |engineID| :: key[j] == engineID[j];
  }

  /**
   With slash-free engine ids a refresh replaces exactly its own engine's routes: the fresh ones
   are all there, no other engine's route is lost or overwritten, and none of the old ones stays.
   */
  lemma RefreshIsLocal(routes: map<string, Route>, engineID: string, base: Details, models: seq<ModelInfo>)
    requires Keyed(routes) && !HasChar(engineID, '/')
    ensures var after := Refreshed(routes, engineID, Group(engineID, base, models));
      && Keyed(after)
      && (forall key | key in routes && routes[key].engineID != engineID :: key in after && after[key] == routes[key])
      && (forall key | key in after && after[key].engineID == engineID ::
            key in Group(engineID, base, models) && after[key] == Group(engineID, base, models)[key])
      && (forall key | key in Group(engineID, base, models) ::
        key in after && after[key] == Group(engineID, base, models)[key])
  {
    hide Group, EffortsOf, Efforts, Names, RouteKey;
    GroupingIsSound(engineID, base, models);
    var group := Group(engineID, base, models);
    forall key | key in routes && routes[key].engineID != engineID
      ensures key !in group
    {
      FirstSegment(routes[key].engineID, routes[key].backendModel);
      if key in group {
        assert RouteSound(engineID, key, group[key]);
        FirstSegment(engineID, group[key].backendModel);
      }
    }
    forall key | key in group
      ensures group[key].engineID == engineID && key == RouteKey(engineID, group[key].backendModel)
    {
      assert RouteSound(engineID, key, group[key]);
    }
  }

  class Catalogue {
    var routes: map<string, Route>

    constructor ()
      ensures routes == map[]
    {
      routes := map[];
    }

    /** What discoverModels does with one engine's answer. */
    method Refresh(engineID: string, base: Details, models: seq<ModelInfo>)
      modifies this
      ensures routes == Refreshed(old(routes), engineID, Group(engineID, base, models))
    {
      hide Group;
      var update := GroupedBracketRoutes(engineID, base, models);
      DropEngine(engineID);
      AddAll(update);
    }

    method DropEngine(engineID: string)
      modifies this
      ensures routes == map key | key in old(routes) && old(routes)[key].engineID != engineID :: old(routes)[key]
    {
      var rest := routes.Keys;
      while rest != {}
        invariant rest <= old(routes).Keys
        invariant routes == map key | key in old(routes) &&
          (key in rest || old(routes)[key].engineID != engineID) :: old(routes)[key]
        decreases rest
      {
        var id :| id in rest;
        if routes[id].engineID == engineID {
          routes := routes - {id};
        }
        rest := rest - {id};
      }
    }

    method AddAll(update: map<string, Route>)
      modifies this
      ensures routes == old(routes) + update
    {
      var rest := update.Keys;
      while rest != {}
        invariant rest <= update.Keys
        invariant routes == old(routes) + map key | key in update && key !in rest :: update[key]
        decreases rest
      {
        var id :| id in rest;
        routes := routes[id := update[id]];
        rest := rest - {id};
      }
      assert (map key | key in update && key !in rest :: update[key]) == update;
    }

    /** resolveModel: an engine by name, a discovered route, or engine/model passed through. */
    function Resolve(engines: set<string>, details: map<string, Details>, id: string): Option<Route>
      reads this
    {
      var none := Details("", 0, 0);
      if id in engines then Some(Route(id, "", [], [], "", if id in details then details[id] else none))
      else if id in routes then Some(routes[id])
      else
        var cut := FirstIndex(id, '/');
        if cut < 0 || cut + 1 == |id| || id[..cut] !in engines then None
        else Some(Route(id[..cut], id[cut + 1..], [], [], "", none))
    }
  }

  /** The engine a model id is served by is named by the id itself: all of it, or what precedes its first slash. */
  lemma ResolvedByName(c: Catalogue, engines: set<string>, details: map<string, Details>, id: string)
    requires Keyed(c.routes)
    ensures var r := c.Resolve(engines, details, id);
      r.Some? ==>
        if id in engines then r.value.engineID == id && r.value.backendModel == ""
        else FirstIndex(id, '/') >= 0 && r.value.engineID == id[..FirstIndex(id, '/')]
             && r.value.backendModel == id[FirstIndex(id, '/') + 1..]
  {
    if id !in engines && id in c.routes {
      FirstSegment(c.routes[id].engineID, c.routes[id].backendModel);
    }
  }

  /**
   What a model id resolves to, in full: an engine's own name, else a discovered route unchanged,
   else any model passed through to the slash-free engine named before the slash; and nothing else.
   */
  lemma ResolvedExactly(c: Catalogue, engines: set<string>, details: map<string, Details>, id: string)
    ensures var r := c.Resolve(engines, details, id);
      && (id in engines ==>
            && r.Some? && r.value.engineID == id && r.value.backendModel == "" && r.value.effectiveIDs == []
            && r.value.variants == [] && (id in details ==> r.value.details == details[id]))
      && (id !in engines && id in c.routes ==> r == Some(c.routes[id]))
      && (id !in engines && id !in c.routes ==>
            && (r.Some? <==> exists engine, model :: PassesThrough(engines, id, engine, model))
            && forall engine, model | PassesThrough(engines, id, engine, model) ::
                 r == Some(Route(engine, model, [], [], "", Details("", 0, 0))))
  {
    if id !in engines && id !in c.routes {
      forall engine, model | PassesThrough(engines, id, engine, model)
        ensures c.Resolve(engines, details, id) == Some(Route(engine, model, [], [], "", Details("", 0, 0)))
      {
        FirstSegment(engine, model);
      }
      var cut := FirstIndex(id, '/');
      if c.Resolve(engines, details, id).Some? {
        assert id == id[..cut] + "/" + id[cut + 1..];
        assert !HasChar(id[..cut], '/');
        assert PassesThrough(engines, id, id[..cut], id[cut + 1..]);
      }
    }
  }

  ghost predicate PassesThrough(engines: set<string>, id: string, engine: string, model: string) {
    engine in engines && !HasChar(engine, '/') && model != "" && id == RouteKey(engine, model)
  }
}
