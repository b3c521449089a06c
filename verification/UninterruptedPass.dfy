/**
  The two controller models agree: a pass whose calls are not interrupted, and whose
  reads are current, does to the cluster exactly what the one-step pass does, for
  every way the server may answer.
*/
module UninterruptedPass {
  import opened Redis
  import opened ModelSpecs
  import opened Conditions
  import opened Reconciler
  import opened InterleavedController

  ghost predicate SameObjects<T>(stored: map<Key, Versioned<T>>, objects: map<Key, T>) {
    forall k :: (k in stored <==> k in objects) && (k in stored ==> stored[k].value == objects[k])
  }

  /** The cluster, without revisions, log and passes. */
  ghost predicate Matches(s: State, cl: Cluster) {
    && SameObjects(s.models, cl.models)
    && SameObjects(s.deployments, cl.deployments)
    && SameObjects(s.services, cl.services)
  }

  /** The next call of the pass on key, reading what is stored and answered as x says. */
  ghost predicate Calls(s: State, e: Event, key: Key, x: Inputs) {
    match e
    case Begin(k, cached, order, now) =>
      k == key && Get(s.models, key) == Some(cached) && order == x.order && now == x.now && !x.faults.getModel
    case ReadDeployment(k, cached) => k == key && cached == Get(s.deployments, key) && !x.faults.getDeployment
    case SettleDeployment(k, fault, now) => k == key && fault == x.faults.writeDeployment && now == x.now
    case ReadService(k, cached) => k == key && cached == Get(s.services, key) && !x.faults.getService
    case SettleService(k, fault, granted, now) =>
      k == key && fault == x.faults.writeService && granted == x.granted && now == x.now
    case FailRead(k, now) =>
      && k == key && now == x.now && key in s.passes
      && (if s.passes[key].Fetched? then x.faults.getDeployment else x.faults.getService)
    case WriteStatus(k, fault) => k == key && fault == x.faults.writeStatus
    case _ => false
  }

  /** These calls, one after the other and with nothing in between, lead from s to s', where the pass has ended. */
  ghost predicate Leads(s: State, calls: seq<Event>, key: Key, x: Inputs, s': State)
    decreases |calls|
  {
    if calls == [] then s == s' && key !in s.passes
    else
      && Enabled(s, calls[0]) && Calls(s, calls[0], key, x)
      && (calls[1..] != [] ==> key in Apply(s, calls[0]).passes)
      && Leads(Apply(s, calls[0]), calls[1..], key, x, s')
  }

  lemma OneMore(s: State, e: Event, calls: seq<Event>, key: Key, x: Inputs, s': State)
    requires Enabled(s, e) && Calls(s, e, key, x) && Leads(Apply(s, e), calls, key, x, s')
    requires calls != [] ==> key in Apply(s, e).passes
    ensures Leads(s, [e] + calls, key, x, s')
  {
    hide Apply, Enabled, Calls;
    assert ([e] + calls)[1..] == calls;
  }

  /** What the calls still to come need: the model is the one that was read, and reads can be answered. */
  ghost predicate Ready(s: State, cl: Cluster, key: Key) {
    Matches(s, cl) && Current(s) && key in s.passes && key in s.models && s.models[key] == s.passes[key].md
  }

  lemma StatusCall(s: State, cl: Cluster, key: Key, x: Inputs) returns (s': State, calls: seq<Event>)
    requires Ready(s, cl, key) && s.passes[key].HasReport?
    ensures Leads(s, calls, key, x, s') && s'.passes == s.passes - {key}
    ensures Matches(s', StatusWritten(cl, key, s.passes[key].status, x.faults.writeStatus))
  {
    var e := WriteStatus(key, x.faults.writeStatus);
    s' := Apply(s, e);
    assert Leads(s', [], key, x, s');
    OneMore(s, e, [], key, x, s');
    calls := [e] + [];
  }

  /** The cluster once the service is settled and the status written. */
  function FromService(cl: Cluster, key: Key, md: ModelDeployment, x: Inputs): Cluster
    requires key in cl.models && key in cl.deployments
  {
    var r := EnsureService(cl, key, md, x.faults, x.granted);
    if r.error.Some? then
      StatusWritten(r.cluster, key, Reporting(md, ErrorReport("ServiceReconcileFailed", r.error.value), x.now),
          x.faults.writeStatus)
    else StatusWritten(r.cluster, key, ObservedStatus(key, md, cl.deployments[key], x.now), x.faults.writeStatus)
  }

  /** The cluster once both children are settled and the status written. */
  function FromDeployment(cl: Cluster, key: Key, md: ModelDeployment, x: Inputs): Cluster
    requires key in cl.models
  {
    var r := EnsureDeployment(cl, key, md, x.faults);
    if r.error.Some? then
      StatusWritten(r.cluster, key, Reporting(md, ErrorReport("DeploymentReconcileFailed", r.error.value), x.now),
          x.faults.writeStatus)
    else FromService(r.cluster, key, md, x)
  }

  /** Reading and settling the service is EnsureService. */
  lemma ServiceSettles(s: State, cl: Cluster, key: Key, p: Progress, x: Inputs)
    requires Matches(s, cl) && p.SawService? && p.seenService == Get(s.services, key) && !x.faults.getService
    ensures var r := EnsureService(cl, key, p.md.value, x.faults, x.granted);
      && Matches(StoreService(s, key, p, x.faults.writeService, x.granted), r.cluster)
      && SettledService(s, key, p, x.faults.writeService, x.now)
         == (if r.error.Some? then Failing(p.md, "ServiceReconcileFailed", r.error.value, x.now)
             else Observing(key, p.md, p.d.value, x.now))
  {
    hide PlanService, AcceptedService, Failing, Observing;
  }

  ghost predicate SettledIn(s: State, cl: Cluster, key: Key) {
    key in s.deployments && key in cl.deployments && s.deployments[key].value == cl.deployments[key]
  }

  lemma MatchesThere(s: State, cl: Cluster, key: Key)
    requires Matches(s, cl)
    ensures key in cl.deployments ==> SettledIn(s, cl, key)
  {
  }

  lemma DeploymentSettles(s: State, cl: Cluster, key: Key, p: Progress, x: Inputs)
    requires Matches(s, cl) && p.SawDeployment? && p.seenDeployment == Get(s.deployments, key)
    requires !x.faults.getDeployment
    ensures var r := EnsureDeployment(cl, key, p.md.value, x.faults);
      && Matches(StoreDeployment(s, key, p, x.faults.writeDeployment), r.cluster)
      && SettledDeployment(s, key, p, x.faults.writeDeployment, x.now)
         == (if r.error.Some? then Failing(p.md, "DeploymentReconcileFailed", r.error.value, x.now)
             else DeploymentDone(p.md, StoreDeployment(s, key, p, x.faults.writeDeployment).deployments[key]))
  {
    hide AcceptedDeployment, Failing, MutatedDeployment;
  }

  /** After the call e the pass is at p and the cluster is cl. */
  ghost predicate Steps(s: State, e: Event, key: Key, x: Inputs, p: Progress, cl: Cluster) {
    && Enabled(s, e) && Calls(s, e, key, x)
    && Apply(s, e).passes == s.passes[key := p]
    && Ready(Apply(s, e), cl, key)
  }

  lemma FailedReadStep(s: State, cl: Cluster, key: Key, x: Inputs)
    requires Ready(s, cl, key)
    requires || (s.passes[key].Fetched? && x.faults.getDeployment)
             || (s.passes[key].DeploymentDone? && x.faults.getService)
    ensures Steps(s, FailRead(key, x.now), key, x, ReadFailed(s.passes[key], x.now), cl)
  {
    hide SameObjects;
    assert ReadFailed(s.passes[key], x.now).md == s.passes[key].md;
  }

  lemma ReadServiceStep(s: State, cl: Cluster, key: Key, x: Inputs)
    requires Ready(s, cl, key) && s.passes[key].DeploymentDone? && !x.faults.getService
    ensures var p := s.passes[key];
      Steps(s, ReadService(key, Get(s.services, key)), key, x, SawService(p.md, p.d, Get(s.services, key)), cl)
    ensures Apply(s, ReadService(key, Get(s.services, key))).services == s.services
  {
    hide SameObjects;
  }

  lemma ReadDeploymentStep(s: State, cl: Cluster, key: Key, x: Inputs)
    requires Ready(s, cl, key) && s.passes[key].Fetched? && !x.faults.getDeployment
    ensures Steps(s, ReadDeployment(key, Get(s.deployments, key)), key, x,
                  SawDeployment(s.passes[key].md, Get(s.deployments, key)), cl)
    ensures Apply(s, ReadDeployment(key, Get(s.deployments, key))).deployments == s.deployments
  {
    hide SameObjects;
  }

  lemma FailingKeepsModel(md: Versioned<ModelDeployment>, reason: string, error: ChildError, now: int)
    ensures Failing(md, reason, error, now).md == md
  {
  }

  lemma ObservingKeepsModel(key: Key, md: Versioned<ModelDeployment>, d: Deployment, now: int)
    ensures Observing(key, md, d, now).md == md
  {
  }

  /** Settling the service, as one call, is EnsureService. */
  lemma SettleServiceStep(s: State, cl: Cluster, key: Key, x: Inputs)
    requires Ready(s, cl, key) && s.passes[key].SawService? && s.passes[key].seenService == Get(s.services, key)
    requires !x.faults.getService
    ensures var p, r := s.passes[key], EnsureService(cl, key, s.passes[key].md.value, x.faults, x.granted);
      Steps(s, SettleService(key, x.faults.writeService, x.granted, x.now), key, x,
            if r.error.Some? then Failing(p.md, "ServiceReconcileFailed", r.error.value, x.now)
            else Observing(key, p.md, p.d.value, x.now),
            r.cluster)
  {
    hide SameObjects, EnsureService, StoreService, SettledService, Failing, Observing;
    var p, r := s.passes[key], EnsureService(cl, key, s.passes[key].md.value, x.faults, x.granted);
    if r.error.Some? {
      FailingKeepsModel(p.md, "ServiceReconcileFailed", r.error.value, x.now);
    } else {
      ObservingKeepsModel(key, p.md, p.d.value, x.now);
    }
    ServiceSettles(s, cl, key, s.passes[key], x);
    StoredCurrent(s, key, s.passes[key], x);
  }

  /** Settling the Deployment, as one call, is EnsureDeployment. */
  lemma SettleDeploymentStep(s: State, cl: Cluster, key: Key, x: Inputs)
    requires Ready(s, cl, key) && s.passes[key].SawDeployment?
    requires s.passes[key].seenDeployment == Get(s.deployments, key)
    requires !x.faults.getDeployment
    ensures var p, r := s.passes[key], EnsureDeployment(cl, key, s.passes[key].md.value, x.faults);
      Steps(s, SettleDeployment(key, x.faults.writeDeployment, x.now), key, x,
            if r.error.Some? then Failing(p.md, "DeploymentReconcileFailed", r.error.value, x.now)
            else DeploymentDone(p.md, StoreDeployment(s, key, p, x.faults.writeDeployment).deployments[key]),
            r.cluster)
      && (r.error.None? ==> SettledIn(StoreDeployment(s, key, p, x.faults.writeDeployment), r.cluster, key))
  {
    hide SameObjects, EnsureDeployment, StoreDeployment, SettledDeployment, Reporting;
    DeploymentSettles(s, cl, key, s.passes[key], x);
    MatchesThere(StoreDeployment(s, key, s.passes[key], x.faults.writeDeployment),
                 EnsureDeployment(cl, key, s.passes[key].md.value, x.faults).cluster, key);
    StoredCurrent(s, key, s.passes[key], x);
  }

  /** A call in front of calls that end the pass. */
  lemma StepThen(s: State, e: Event, key: Key, x: Inputs, p: Progress, cl: Cluster, calls: seq<Event>, s': State)
    requires Steps(s, e, key, x, p, cl) && Leads(Apply(s, e), calls, key, x, s')
    requires s'.passes == Apply(s, e).passes - {key}
    ensures Leads(s, [e] + calls, key, x, s') && s'.passes == s.passes - {key}
  {
    hide Apply, Enabled, Calls, Ready, Leads;
    OneMore(s, e, calls, key, x, s');
  }

  lemma FailedServiceRead(cl: Cluster, key: Key, md: ModelDeployment, x: Inputs)
    requires x.faults.getService
    ensures EnsureService(cl, key, md, x.faults, x.granted) == ChildPass(cl, Some(ServerError))
  {
  }

  lemma FailedDeploymentRead(cl: Cluster, key: Key, md: ModelDeployment, x: Inputs)
    requires x.faults.getDeployment
    ensures EnsureDeployment(cl, key, md, x.faults) == ChildPass(cl, Some(ServerError))
  {
  }

  lemma StoredCurrent(s: State, key: Key, p: Progress, x: Inputs)
    requires Current(s)
    ensures p.SawService? ==> var s' := StoreService(s, key, p, x.faults.writeService, x.granted);
              Current(s') && s'.models == s.models && s'.passes == s.passes
    ensures p.SawDeployment? ==> var s' := StoreDeployment(s, key, p, x.faults.writeDeployment);
              Current(s') && s'.models == s.models && s'.passes == s.passes
  {
    hide StoresService, StoresDeployment, AcceptedService, AcceptedDeployment, PlanService, PlanDeployment;
  }

  // ---------------------------------------------------------------- the calls together

  lemma SettleServiceCalls(s: State, cl: Cluster, key: Key, x: Inputs) returns (s': State, calls: seq<Event>)
    requires Ready(s, cl, key) && s.passes[key].SawService? && s.passes[key].seenService == Get(s.services, key)
    requires key in cl.deployments && s.passes[key].d.value == cl.deployments[key] && !x.faults.getService
    ensures Leads(s, calls, key, x, s') && s'.passes == s.passes - {key}
    ensures Matches(s', FromService(cl, key, s.passes[key].md.value, x))
  {
    hide StatusWritten, ObservedStatus, ObservedReport, Reporting, Leads, EnsureService, Apply, Enabled, Calls;
    hide SameObjects, Current;
    var r := EnsureService(cl, key, s.passes[key].md.value, x.faults, x.granted);
    var e := SettleService(key, x.faults.writeService, x.granted, x.now);
    SettleServiceStep(s, cl, key, x);
    var s1 := Apply(s, e);
    s', calls := StatusCall(s1, r.cluster, key, x);
    StepThen(s, e, key, x, s1.passes[key], r.cluster, calls, s');
    calls := [e] + calls;
  }

  lemma ServiceCalls(s: State, cl: Cluster, key: Key, x: Inputs) returns (s': State, calls: seq<Event>)
    requires Ready(s, cl, key) && s.passes[key].DeploymentDone?
    requires key in cl.deployments && s.passes[key].d.value == cl.deployments[key]
    ensures Leads(s, calls, key, x, s') && s'.passes == s.passes - {key}
    ensures Matches(s', FromService(cl, key, s.passes[key].md.value, x))
  {
    hide StatusWritten, ObservedStatus, ObservedReport, Reporting, Leads, EnsureService, Apply, Enabled, Calls;
    hide SameObjects, Current;
    var p := s.passes[key];
    var r := EnsureService(cl, key, p.md.value, x.faults, x.granted);
    if x.faults.getService {
      FailedServiceRead(cl, key, p.md.value, x);
      FailedReadStep(s, cl, key, x);
      var e := FailRead(key, x.now);
      var s1 := Apply(s, e);
      s', calls := StatusCall(s1, cl, key, x);
      StepThen(s, e, key, x, s1.passes[key], cl, calls, s');
      calls := [e] + calls;
    } else {
      ReadServiceStep(s, cl, key, x);
      var read := ReadService(key, Get(s.services, key));
      var s1 := Apply(s, read);
      s', calls := SettleServiceCalls(s1, cl, key, x);
      StepThen(s, read, key, x, s1.passes[key], cl, calls, s');
      calls := [read] + calls;
    }
  }

  lemma SettleDeploymentCalls(s: State, cl: Cluster, key: Key, x: Inputs) returns (s': State, calls: seq<Event>)
    requires Ready(s, cl, key) && s.passes[key].SawDeployment?
    requires s.passes[key].seenDeployment == Get(s.deployments, key)
    requires !x.faults.getDeployment
    ensures Leads(s, calls, key, x, s') && s'.passes == s.passes - {key}
    ensures Matches(s', FromDeployment(cl, key, s.passes[key].md.value, x))
  {
    hide StatusWritten, Reporting, Leads, EnsureDeployment, FromService, Apply, Enabled, Calls, SameObjects, Current;
    var r := EnsureDeployment(cl, key, s.passes[key].md.value, x.faults);
    var e := SettleDeployment(key, x.faults.writeDeployment, x.now);
    SettleDeploymentStep(s, cl, key, x);
    var s1 := Apply(s, e);
    if r.error.Some? {
      s', calls := StatusCall(s1, r.cluster, key, x);
    } else {
      s', calls := ServiceCalls(s1, r.cluster, key, x);
    }
    StepThen(s, e, key, x, s1.passes[key], r.cluster, calls, s');
    calls := [e] + calls;
  }

  lemma DeploymentCalls(s: State, cl: Cluster, key: Key, x: Inputs) returns (s': State, calls: seq<Event>)
    requires Ready(s, cl, key) && s.passes[key].Fetched?
    ensures Leads(s, calls, key, x, s') && s'.passes == s.passes - {key}
    ensures Matches(s', FromDeployment(cl, key, s.passes[key].md.value, x))
  {
    hide StatusWritten, Reporting, Leads, EnsureDeployment, FromService, Apply, Enabled, Calls, SameObjects, Current;
    var p := s.passes[key];
    if x.faults.getDeployment {
      FailedDeploymentRead(cl, key, p.md.value, x);
      FailedReadStep(s, cl, key, x);
      var e := FailRead(key, x.now);
      var s1 := Apply(s, e);
      s', calls := StatusCall(s1, cl, key, x);
      StepThen(s, e, key, x, s1.passes[key], cl, calls, s');
      calls := [e] + calls;
    } else {
      ReadDeploymentStep(s, cl, key, x);
      var read := ReadDeployment(key, Get(s.deployments, key));
      var s1 := Apply(s, read);
      s', calls := SettleDeploymentCalls(s1, cl, key, x);
      StepThen(s, read, key, x, s1.passes[key], cl, calls, s');
      calls := [read] + calls;
    }
  }

  lemma BeginStep(s: State, cl: Cluster, key: Key, x: Inputs)
    requires Current(s) && Matches(s, cl) && key !in s.passes && OrderFits(cl, key, x.order)
    requires !x.faults.getModel && key in cl.models && !cl.models[key].deleting
    ensures key in s.models && s.models[key].value == cl.models[key]
    ensures Steps(s, Begin(key, s.models[key], x.order, x.now), key, x, Begun(s.models[key], x.order, x.now), cl)
  {
    hide Validate, OrderOf, Reporting;
    assert Begun(s.models[key], x.order, x.now).md == s.models[key];
  }

  /** Where the one-step pass leaves the cluster. */
  lemma PassUnfolds(cl: Cluster, key: Key, x: Inputs)
    requires OrderFits(cl, key, x.order)
    ensures ReconcilePass(cl, key, x).cluster ==
      if NothingToDo(cl, key, x) then cl
      else
        var md := cl.models[key];
        var error := Validate(md.spec, x.order);
        if error.Some? then
          StatusWritten(cl, key, Reporting(md, InvalidReport(error.value), x.now), x.faults.writeStatus)
        else FromDeployment(cl, key, md, x)
  {
    hide Validate, OrderOf, Reporting, StatusWritten, ObservedStatus, EnsureDeployment, EnsureService, StatusFails;
  }

  /** The pass ends with its first read. */
  predicate NothingToDo(cl: Cluster, key: Key, x: Inputs) {
    x.faults.getModel || key !in cl.models || cl.models[key].deleting
  }

  /** The one-step pass is a run of calls of the interleaved controller with nothing in between. */
  lemma PassIsARunOfCalls(s: State, cl: Cluster, key: Key, x: Inputs) returns (s': State, calls: seq<Event>)
    requires Current(s) && Matches(s, cl) && key !in s.passes && OrderFits(cl, key, x.order)
    ensures Leads(s, calls, key, x, s') && s'.passes == s.passes
    ensures calls == [] <==> NothingToDo(cl, key, x)
    ensures Matches(s', ReconcilePass(cl, key, x).cluster)
  {
    hide StatusWritten, Reporting, Leads, FromDeployment, Validate, OrderOf, Apply, Enabled, Calls, SameObjects;
    hide Current, ReconcilePass;
    PassUnfolds(cl, key, x);
    if NothingToDo(cl, key, x) {
      s', calls := s, [];
      NoCalls(s, key, x);
    } else {
      BeginStep(s, cl, key, x);
      var e := Begin(key, s.models[key], x.order, x.now);
      var s1 := Apply(s, e);
      if Validate(cl.models[key].spec, x.order).Some? {
        s', calls := StatusCall(s1, cl, key, x);
      } else {
        s', calls := DeploymentCalls(s1, cl, key, x);
      }
      StepThen(s, e, key, x, s1.passes[key], cl, calls, s');
      calls := [e] + calls;
      assert s.passes - {key} == s.passes;
    }
  }

  /** At every point of a pass there is only one next call. */
  lemma OneNextCall(s: State, e: Event, f: Event, key: Key, x: Inputs)
    requires Enabled(s, e) && Calls(s, e, key, x) && Enabled(s, f) && Calls(s, f, key, x)
    ensures e == f
  {
    hide OrderOf;
  }

  lemma {:induction false} OnlyOneWay(s: State, a: seq<Event>, s1: State, b: seq<Event>, s2: State, key: Key, x: Inputs)
    requires Leads(s, a, key, x, s1) && Leads(s, b, key, x, s2) && (a == [] <==> b == [])
    ensures s1 == s2
    decreases |a|
  {
    hide Apply, Enabled, Calls;
    if a != [] {
      OneNextCall(s, a[0], b[0], key, x);
      NoCallsLeft(Apply(s, a[0]), a[1..], key, x, s1);
      NoCallsLeft(Apply(s, a[0]), b[1..], key, x, s2);
      OnlyOneWay(Apply(s, a[0]), a[1..], s1, b[1..], s2, key, x);
    }
  }

  lemma NoCallsLeft(s: State, calls: seq<Event>, key: Key, x: Inputs, s': State)
    requires Leads(s, calls, key, x, s')
    ensures calls == [] ==> key !in s.passes
  {
  }

  /** A pass that begins finds a model that can be read and is not being deleted. */
  lemma BeginsWithModel(s: State, cl: Cluster, calls: seq<Event>, key: Key, x: Inputs, s': State)
    requires Matches(s, cl) && key !in s.passes && Leads(s, calls, key, x, s') && calls != []
    ensures !NothingToDo(cl, key, x)
  {
    hide OrderOf;
  }

  /**
    Every pass whose calls are not interrupted leaves the cluster exactly as the
    one-step pass does: whatever the cluster, the inputs and the faults.
  */
  lemma UninterruptedExactly(s: State, cl: Cluster, key: Key, x: Inputs, calls: seq<Event>, s': State)
    requires Current(s) && Matches(s, cl) && key !in s.passes && OrderFits(cl, key, x.order)
    requires Leads(s, calls, key, x, s') && (calls == [] ==> NothingToDo(cl, key, x))
    ensures Matches(s', ReconcilePass(cl, key, x).cluster) && s'.passes == s.passes
  {
    hide Leads, Matches, ReconcilePass, Current, OrderFits;
    var s1, calls1 := PassIsARunOfCalls(s, cl, key, x);
    if calls != [] { BeginsWithModel(s, cl, calls, key, x, s'); }
    OnlyOneWay(s, calls, s', calls1, s1, key, x);
  }

  lemma NoCalls(s: State, key: Key, x: Inputs)
    requires key !in s.passes
    ensures Leads(s, [], key, x, s)
  {
  }
}
