/**
  The desired state of a ModelDeployment: validation before anything is rendered,
  and the default resources a runtime gets.
*/
module ModelSpecs {
  import opened Redis

  /** Resource quantities by name, in base units (cores, bytes). */
  type ResourceList = map<string, real>

  datatype Resources = Resources(limits: ResourceList, requests: ResourceList)

  datatype ModelSpec = ModelSpec(
    model: string,
    version: string,
    image: string,
    port: int,              // 0 when absent
    replicas: Option<int>,
    resources: Resources)

  function DesiredReplicas(spec: ModelSpec): int { if spec.replicas.None? then 1 else spec.replicas.value }

  function DesiredPort(spec: ModelSpec): int { if spec.port == 0 then 8080 else spec.port }

  // ---------------------------------------------------------------- validation

  datatype SpecError =
    | EmptyModel
    | EmptyVersion
    | BadImage
    | BadReplicas(count: int)
    | BadPort(number: int)
    | NegativeRequest(name: string)
    | RequestOverLimit(name: string)
    | NegativeLimit(name: string)

  /** Unicode white space. */
  predicate IsSpace(c: char) {
    || '\t' <= c <= '\r' || c == ' ' || c == '\U{85}' || c == '\U{A0}' || c == '\U{1680}'
    || '\U{2000}' <= c <= '\U{200A}' || c == '\U{2028}' || c == '\U{2029}' || c == '\U{202F}'
    || c == '\U{205F}' || c == '\U{3000}'
  }

  /** Trimming white space leaves nothing. */
  predicate Blank(s: string) { forall i :: 0 <= i < |s| ==> IsSpace(s[i]) }

  predicate HasGap(s: string) { exists i :: 0 <= i < |s| && s[i] in " \t\r\n" }

  /** The checks that do not depend on any map order. */
  function ScalarError(spec: ModelSpec): Option<SpecError> {
    if Blank(spec.model) then Some(EmptyModel)
    else if Blank(spec.version) then Some(EmptyVersion)
    else if Blank(spec.image) || HasGap(spec.image) then Some(BadImage)
    else if DesiredReplicas(spec) < 1 || DesiredReplicas(spec) > 100 then Some(BadReplicas(DesiredReplicas(spec)))
    else if DesiredPort(spec) < 1 || DesiredPort(spec) > 65535 then Some(BadPort(DesiredPort(spec)))
    else None
  }

  function RequestError(r: Resources, name: string): Option<SpecError>
    requires name in r.requests
  {
    if r.requests[name] < 0.0 then Some(NegativeRequest(name))
    else if name in r.limits && r.requests[name] > r.limits[name] then Some(RequestOverLimit(name))
    else None
  }

  function LimitError(r: Resources, name: string): Option<SpecError>
    requires name in r.limits
  {
    if r.limits[name] < 0.0 then Some(NegativeLimit(name)) else None
  }

  /** An order in which a map happens to be iterated. */
  ghost predicate Enumerates(order: seq<string>, m: ResourceList) {
    Distinct(order) && forall name :: name in order <==> name in m
  }

  function FirstRequestError(r: Resources, order: seq<string>): Option<SpecError>
    requires forall name :: name in order ==> name in r.requests
  {
    if order == [] then None
    else if RequestError(r, order[0]).Some? then RequestError(r, order[0])
    else FirstRequestError(r, order[1..])
  }

  function FirstLimitError(r: Resources, order: seq<string>): Option<SpecError>
    requires forall name :: name in order ==> name in r.limits
  {
    if order == [] then None
    else if LimitError(r, order[0]).Some? then LimitError(r, order[0])
    else FirstLimitError(r, order[1..])
  }

  datatype Order = Order(requests: seq<string>, limits: seq<string>)

  ghost predicate OrderOf(order: Order, r: Resources) {
    Enumerates(order.requests, r.requests) && Enumerates(order.limits, r.limits)
  }

  /** What validation reports when the maps are iterated in the given order. */
  function Validate(spec: ModelSpec, order: Order): Option<SpecError>
    requires OrderOf(order, spec.resources)
  {
    if ScalarError(spec).Some? then ScalarError(spec)
    else
      var first := FirstRequestError(spec.resources, order.requests);
      if first.Some? then first else FirstLimitError(spec.resources, order.limits)
  }

  /** The specs the controller accepts, said without an order. */
  ghost predicate SpecOk(spec: ModelSpec) {
    && !Blank(spec.model) && !Blank(spec.version)
    && !Blank(spec.image) && (forall i :: 0 <= i < |spec.image| ==> spec.image[i] !in " \t\r\n")
    && 1 <= DesiredReplicas(spec) <= 100
    && 1 <= DesiredPort(spec) <= 65535
    && (forall name :: name in spec.resources.requests ==>
          && spec.resources.requests[name] >= 0.0
          && (name in spec.resources.limits ==> spec.resources.requests[name] <= spec.resources.limits[name]))
    && (forall name :: name in spec.resources.limits ==> spec.resources.limits[name] >= 0.0)
  }

  /** Everything some order could report. */
  ghost predicate Reportable(spec: ModelSpec, error: SpecError) {
    var r := spec.resources;
    || ScalarError(spec) == Some(error)
    || (ScalarError(spec).None? && exists name :: name in r.requests && RequestError(r, name) == Some(error))
    || (ScalarError(spec).None? && (forall name :: name in r.requests ==> RequestError(r, name).None?)
        && exists name :: name in r.limits && LimitError(r, name) == Some(error))
  }

  lemma {:induction false} FirstRequestErrorIs(r: Resources, order: seq<string>)
    requires forall name :: name in order ==> name in r.requests
    ensures FirstRequestError(r, order).None? <==> forall name :: name in order ==> RequestError(r, name).None?
    ensures FirstRequestError(r, order).Some? ==>
              exists name :: name in order && RequestError(r, name) == FirstRequestError(r, order)
  {
    if order != [] {
      assert order == [order[0]] + order[1..];
      FirstRequestErrorIs(r, order[1..]);
    }
  }

  lemma {:induction false} FirstLimitErrorIs(r: Resources, order: seq<string>)
    requires forall name :: name in order ==> name in r.limits
    ensures FirstLimitError(r, order).None? <==> forall name :: name in order ==> LimitError(r, name).None?
    ensures FirstLimitError(r, order).Some? ==>
              exists name :: name in order && LimitError(r, name) == FirstLimitError(r, order)
  {
    if order != [] {
      assert order == [order[0]] + order[1..];
      FirstLimitErrorIs(r, order[1..]);
    }
  }

  /** For every iteration order, validation accepts exactly the specs that are fine and reports something reportable. */
  lemma ValidateExactly(spec: ModelSpec, order: Order)
    requires OrderOf(order, spec.resources)
    ensures Validate(spec, order).None? <==> SpecOk(spec)
    ensures Validate(spec, order).Some? ==> Reportable(spec, Validate(spec, order).value)
  {
    FirstRequestErrorIs(spec.resources, order.requests);
    FirstLimitErrorIs(spec.resources, order.limits);
  }

  lemma {:induction false} SomeOrder(names: set<string>) returns (order: seq<string>)
    ensures Distinct(order) && forall name :: name in order <==> name in names
  {
    if names == {} {
      order := [];
    } else {
      var name :| name in names;
      var rest := SomeOrder(names - {name});
      order := [name] + rest;
    }
  }

  lemma OrderWithFirst(m: ResourceList, first: string) returns (order: seq<string>)
    requires first in m
    ensures Enumerates(order, m) && order != [] && order[0] == first
  {
    var rest := SomeOrder(m.Keys - {first});
    order := [first] + rest;
  }

  lemma AnyOrder(m: ResourceList) returns (order: seq<string>)
    ensures Enumerates(order, m)
  {
    order := SomeOrder(m.Keys);
  }

  /** Whatever is reportable is reported under some order. */
  lemma ReportedUnderSomeOrder(spec: ModelSpec, error: SpecError) returns (order: Order)
    requires Reportable(spec, error)
    ensures OrderOf(order, spec.resources) && Validate(spec, order) == Some(error)
  {
    var r := spec.resources;
    var requests := AnyOrder(r.requests);
    var limits := AnyOrder(r.limits);
    if ScalarError(spec).None? {
      if name :| name in r.requests && RequestError(r, name) == Some(error) {
        requests := OrderWithFirst(r.requests, name);
      } else {
        var name :| name in r.limits && LimitError(r, name) == Some(error);
        limits := OrderWithFirst(r.limits, name);
        FirstRequestErrorIs(r, requests);
      }
    }
    order := Order(requests, limits);
  }

  /** All orders report the same exactly if no two different errors are reportable. */
  lemma ReportIsDeterminedExactly(spec: ModelSpec)
    ensures (forall o, o' :: OrderOf(o, spec.resources) && OrderOf(o', spec.resources) ==>
              Validate(spec, o) == Validate(spec, o'))
       <==> (forall e, e' :: Reportable(spec, e) && Reportable(spec, e') ==> e == e')
  {
    if forall e, e' :: Reportable(spec, e) && Reportable(spec, e') ==> e == e' {
      forall o, o' | OrderOf(o, spec.resources) && OrderOf(o', spec.resources)
        ensures Validate(spec, o) == Validate(spec, o')
      {
        ValidateExactly(spec, o);
        ValidateExactly(spec, o');
      }
    } else {
      var e, e' :| Reportable(spec, e) && Reportable(spec, e') && e != e';
      var o := ReportedUnderSomeOrder(spec, e);
      var o' := ReportedUnderSomeOrder(spec, e');
      assert Validate(spec, o) != Validate(spec, o');
    }
  }

  const TwiceNegative :=
    ModelSpec("m", "1", "i", 0, None, Resources(map[], map["cpu" := -1.0, "memory" := -1.0]))

  /** The report does depend on the order: this spec is rejected for one resource or for the other. */
  lemma OrderDecidesReport() returns (o: Order, o': Order)
    ensures OrderOf(o, TwiceNegative.resources) && OrderOf(o', TwiceNegative.resources)
    ensures Validate(TwiceNegative, o) == Some(NegativeRequest("cpu"))
    ensures Validate(TwiceNegative, o') == Some(NegativeRequest("memory"))
  {
    hide Validate, OrderOf;
    var r := TwiceNegative.resources;
    assert ScalarError(TwiceNegative).None? by {
      assert !IsSpace("m"[0]) && !IsSpace("1"[0]) && !IsSpace("i"[0]);
    }
    assert "cpu" in r.requests && "memory" in r.requests;
    assert RequestError(r, "cpu") == Some(NegativeRequest("cpu"));
    assert RequestError(r, "memory") == Some(NegativeRequest("memory"));
    o := ReportedUnderSomeOrder(TwiceNegative, NegativeRequest("cpu"));
    o' := ReportedUnderSomeOrder(TwiceNegative, NegativeRequest("memory"));
  }

  // ---------------------------------------------------------------- what is reported

  /** The replica count that is asked for, and the port: 1 and 8080 where the spec says nothing. */
  function AskedReplicas(spec: ModelSpec): int { if spec.replicas == None then 1 else spec.replicas.value }
  function AskedPort(spec: ModelSpec): int { if spec.port == 0 then 8080 else spec.port }

  /** How many of the checks that look at single fields pass, in the order in which they are made. */
  function ScalarsPassed(spec: ModelSpec): nat {
    if Blank(spec.model) then 0
    else if Blank(spec.version) then 1
    else if Blank(spec.image) || exists i :: 0 <= i < |spec.image| && spec.image[i] in " \t\r\n" then 2
    else if !(1 <= AskedReplicas(spec) <= 100) then 3
    else if !(1 <= AskedPort(spec) <= 65535) then 4
    else 5
  }

  predicate RequestFine(r: Resources, name: string) {
    name in r.requests ==> r.requests[name] >= 0.0 && (name in r.limits ==> r.requests[name] <= r.limits[name])
  }

  predicate LimitFine(r: Resources, name: string) { name in r.limits ==> r.limits[name] >= 0.0 }

  /** The name is the first of the list that fails its check. */
  ghost predicate FirstBad(names: seq<string>, fine: string -> bool, name: string) {
    exists i :: 0 <= i < |names| && names[i] == name && !fine(name) && forall j :: 0 <= j < i ==> fine(names[j])
  }

  /** The problem that is to be reported for this order of the maps. */
  ghost predicate IsReported(spec: ModelSpec, order: Order, error: SpecError) {
    var r := spec.resources;
    var request, limit := name => RequestFine(r, name), name => LimitFine(r, name);
    match error
    case EmptyModel => ScalarsPassed(spec) == 0
    case EmptyVersion => ScalarsPassed(spec) == 1
    case BadImage => ScalarsPassed(spec) == 2
    case BadReplicas(count) => ScalarsPassed(spec) == 3 && count == AskedReplicas(spec)
    case BadPort(number) => ScalarsPassed(spec) == 4 && number == AskedPort(spec)
    case NegativeRequest(name) =>
      && ScalarsPassed(spec) == 5 && FirstBad(order.requests, request, name)
      && name in r.requests && r.requests[name] < 0.0
    case RequestOverLimit(name) =>
      && ScalarsPassed(spec) == 5 && FirstBad(order.requests, request, name)
      && name in r.requests && r.requests[name] >= 0.0
    case NegativeLimit(name) =>
      && ScalarsPassed(spec) == 5 && (forall i :: 0 <= i < |order.requests| ==> request(order.requests[i]))
      && FirstBad(order.limits, limit, name)
  }

  lemma {:induction false} FirstRequestReported(r: Resources, names: seq<string>)
    requires forall name :: name in names ==> name in r.requests
    ensures var e := FirstRequestError(r, names);
      && (e.None? <==> forall i :: 0 <= i < |names| ==> RequestFine(r, names[i]))
      && (e.Some? ==>
            && (e.value.NegativeRequest? || e.value.RequestOverLimit?)
            && FirstBad(names, name => RequestFine(r, name), e.value.name)
            && e.value.name in r.requests && (e.value.NegativeRequest? <==> r.requests[e.value.name] < 0.0))
  {
    if names != [] {
      assert names == [names[0]] + names[1..];
      FirstRequestReported(r, names[1..]);
      if RequestError(r, names[0]).None? {
        assert RequestFine(r, names[0]);
        var e := FirstRequestError(r, names[1..]);
        if e.Some? { FirstBadLater(names, name => RequestFine(r, name), e.value.name); }
      } else {
        assert names[0] == RequestError(r, names[0]).value.name && !RequestFine(r, names[0]);
      }
    }
  }

  lemma FirstBadLater(names: seq<string>, fine: string -> bool, name: string)
    requires names != [] && fine(names[0]) && FirstBad(names[1..], fine, name)
    ensures FirstBad(names, fine, name)
  {
    var rest := names[1..];
    var i :| 0 <= i < |rest| && rest[i] == name && !fine(name) && forall j :: 0 <= j < i ==> fine(rest[j]);
    assert names[i + 1] == name;
    forall j | 0 <= j < i + 1 ensures fine(names[j]) { if j > 0 { assert names[j] == rest[j - 1]; } }
  }

  lemma {:induction false} FirstLimitReported(r: Resources, names: seq<string>)
    requires forall name :: name in names ==> name in r.limits
    ensures var e := FirstLimitError(r, names);
      && (e.None? <==> forall i :: 0 <= i < |names| ==> LimitFine(r, names[i]))
      && (e.Some? ==> e.value.NegativeLimit? && FirstBad(names, name => LimitFine(r, name), e.value.name))
  {
    if names != [] {
      assert names == [names[0]] + names[1..];
      FirstLimitReported(r, names[1..]);
      if LimitError(r, names[0]).None? {
        assert LimitFine(r, names[0]);
        var e := FirstLimitError(r, names[1..]);
        if e.Some? { FirstBadLater(names, name => LimitFine(r, name), e.value.name); }
      } else {
        assert names[0] == LimitError(r, names[0]).value.name && !LimitFine(r, names[0]);
      }
    }
  }

  /** For every order: what is reported is the first problem met: single fields first, then requests, then limits. */
  lemma FirstProblemReported(spec: ModelSpec, order: Order)
    requires OrderOf(order, spec.resources)
    ensures Validate(spec, order).Some? ==> IsReported(spec, order, Validate(spec, order).value)
    ensures Validate(spec, order).None? ==>
      && ScalarsPassed(spec) == 5
      && (forall i :: 0 <= i < |order.requests| ==> RequestFine(spec.resources, order.requests[i]))
      && (forall i :: 0 <= i < |order.limits| ==> LimitFine(spec.resources, order.limits[i]))
  {
    hide FirstRequestError, FirstLimitError, FirstBad, IsSpace;
    FirstRequestReported(spec.resources, order.requests);
    FirstLimitReported(spec.resources, order.limits);
  }

  /** White space is trimmed and letters are not. */
  lemma TrimmedIsSpace()
    ensures Blank("") && Blank(" ") && Blank("\t\n\r") && !Blank("m") && !Blank(" m ")
  {
    assert " m "[1] == 'm';
    assert "m"[0] == 'm';
  }

  /** The validation as the controller performs it, with the order its map iterations took. */
  method ValidateSpec(spec: ModelSpec, order: Order) returns (error: Option<SpecError>)
    requires OrderOf(order, spec.resources)
    ensures error == Validate(spec, order)
    ensures error.None? <==> SpecOk(spec)
    ensures error.Some? ==> IsReported(spec, order, error.value)
  {
    hide IsReported, SpecOk, Reportable, ScalarsPassed, RequestFine, LimitFine, IsSpace;
    ValidateExactly(spec, order);
    FirstProblemReported(spec, order);
    if Blank(spec.model) { return Some(EmptyModel); }
    if Blank(spec.version) { return Some(EmptyVersion); }
    if Blank(spec.image) || HasGap(spec.image) { return Some(BadImage); }
    var replicas := DesiredReplicas(spec);
    if replicas < 1 || replicas > 100 { return Some(BadReplicas(replicas)); }
    var port := DesiredPort(spec);
    if port < 1 || port > 65535 { return Some(BadPort(port)); }
    var r := spec.resources;
    var names := order.requests;
    var i := 0;
    while i < |names|
      invariant 0 <= i <= |names|
      invariant FirstRequestError(r, names[i..]) == FirstRequestError(r, names)
    {
      var name := names[i];
      if r.requests[name] < 0.0 { return Some(NegativeRequest(name)); }
      if name in r.limits && r.requests[name] > r.limits[name] { return Some(RequestOverLimit(name)); }
      assert names[i..][1..] == names[i + 1..];
      i := i + 1;
    }
    names, i := order.limits, 0;
    while i < |names|
      invariant 0 <= i <= |names|
      invariant FirstLimitError(r, names[i..]) == FirstLimitError(r, order.limits)
      invariant names == order.limits
    {
      var name := names[i];
      if r.limits[name] < 0.0 { return Some(NegativeLimit(name)); }
      assert names[i..][1..] == names[i + 1..];
      i := i + 1;
    }
    return None;
  }

  // ---------------------------------------------------------------- default resources

  const DefaultRequests: ResourceList := map["cpu" := 0.1, "memory" := 134217728.0]
  const DefaultLimits: ResourceList := map["cpu" := 1.0, "memory" := 536870912.0]

  function EffectiveResources(spec: ModelSpec): Resources {
    Resources(
      if spec.resources.limits == map[] then DefaultLimits else spec.resources.limits,
      if spec.resources.requests == map[] then DefaultRequests else spec.resources.requests)
  }

  /** A pod whose request exceeds its limit is rejected by the cluster. */
  predicate Fits(r: Resources) {
    forall name :: name in r.requests && name in r.limits ==> r.requests[name] <= r.limits[name]
  }

  /** A given quantity compared with a default, where there is one. */
  predicate AtMost(given: ResourceList, name: string, bound: real) { name in given ==> given[name] <= bound }
  predicate AtLeast(given: ResourceList, name: string, bound: real) { name in given ==> given[name] >= bound }

  predicate DefaultsCompatible(r: Resources) {
    if (r.requests == map[]) == (r.limits == map[]) then true
    else if r.limits == map[] then AtMost(r.requests, "cpu", 1.0) && AtMost(r.requests, "memory", 536870912.0)
    else AtLeast(r.limits, "cpu", 0.1) && AtLeast(r.limits, "memory", 134217728.0)
  }

  lemma DefaultNames(name: string)
    ensures name in DefaultRequests <==> name == "cpu" || name == "memory"
    ensures name in DefaultLimits <==> name == "cpu" || name == "memory"
    ensures DefaultRequests["cpu"] == 0.1 && DefaultLimits["cpu"] == 1.0
    ensures DefaultRequests["memory"] == 134217728.0 && DefaultLimits["memory"] == 536870912.0
  {
    assert "cpu"[0] != "memory"[0];
    assert "cpu" != "memory";
  }

  /** An accepted spec renders to requests within limits exactly if its one-sided quantities respect the defaults. */
  lemma DefaultsFitExactly(spec: ModelSpec)
    requires SpecOk(spec)
    ensures Fits(EffectiveResources(spec)) <==> DefaultsCompatible(spec.resources)
  {
    hide SpecOk;
    var r, e := spec.resources, EffectiveResources(spec);
    DefaultNames("cpu");
    DefaultNames("memory");
    assert r.requests != map[] && r.limits != map[] ==> Fits(r) by { GivenFit(spec); }
    if Fits(e) {
      if r.limits == map[] && r.requests != map[] {
        assert "cpu" in e.requests ==> e.requests["cpu"] <= e.limits["cpu"];
        assert "memory" in e.requests ==> e.requests["memory"] <= e.limits["memory"];
      } else if r.requests == map[] && r.limits != map[] {
        assert "cpu" in e.limits ==> e.requests["cpu"] <= e.limits["cpu"];
        assert "memory" in e.limits ==> e.requests["memory"] <= e.limits["memory"];
      }
    }
    if DefaultsCompatible(r) {
      forall name | name in e.requests && name in e.limits ensures e.requests[name] <= e.limits[name] {
        DefaultNames(name);
      }
    }
  }

  lemma GivenFit(spec: ModelSpec)
    requires SpecOk(spec)
    ensures Fits(spec.resources)
  {
  }

  /** The condition can fail: a large request with no limit given is accepted and rendered above the default limit. */
  lemma DefaultsMisfit() returns (spec: ModelSpec)
    ensures SpecOk(spec) && !Fits(EffectiveResources(spec))
  {
    spec := ModelSpec("m", "v1", "repo/image:1", 8080, Some(1), Resources(map[], map["cpu" := 2.0]));
    assert spec.model[0] == 'm' && !IsSpace(spec.model[0]);
    assert spec.version[0] == 'v' && !IsSpace(spec.version[0]);
    assert spec.image[0] == 'r' && !IsSpace(spec.image[0]);
    assert "cpu" in spec.resources.requests && spec.resources.requests != map[];
    DefaultNames("cpu");
    var e := EffectiveResources(spec);
    assert e.requests["cpu"] == 2.0 && e.limits["cpu"] == 1.0;
  }
}
