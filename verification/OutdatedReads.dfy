/**
  What an outdated read can do: runs from the empty cluster in which a pass reads a
  Deployment that is no longer stored and shows it as available.
*/
module OutdatedReads {
  import opened Redis
  import opened ModelSpecs
  import opened Ownership
  import opened Reconciler
  import opened Convergence
  import opened InterleavedController
  import opened Readiness
  import ControllerRuns

  /** The run so far, and where it stands. */
  ghost predicate Reaches(states: seq<State>, events: seq<Event>, s: State) {
    IsRun(states, events) && states[0] == Start && states[|events|] == s
  }

  lemma Then(states: seq<State>, events: seq<Event>, s: State, e: Event)
    returns (states': seq<State>, events': seq<Event>)
    requires Reaches(states, events, s) && Enabled(s, e)
    ensures Reaches(states', events', Apply(s, e))
  {
    hide Apply, Enabled;
    states', events' := states + [Apply(s, e)], events + [e];
    forall i {:trigger events'[i]} | 0 <= i < |events'| ensures Next(states'[i], events'[i], states'[i + 1]) {
      if i < |events| { assert events'[i] == events[i]; }
    }
  }

  lemma SomeOrderOf(spec: ModelSpec) returns (order: Order)
    requires SpecOk(spec)
    ensures OrderOf(order, spec.resources) && Validate(spec, order).None?
  {
    hide Validate, SpecOk;
    var requests := AnyOrder(spec.resources.requests);
    var limits := AnyOrder(spec.resources.limits);
    order := Order(requests, limits);
    ValidateExactly(spec, order);
  }

  /** The model of key is there and acceptable, and no pass is at work on it. */
  ghost predicate Quiet(s: State, key: Key) {
    && key in s.models && !s.models[key].value.deleting && SpecOk(s.models[key].value.spec)
    && key !in s.passes && Current(s)
  }

  lemma BeginQuiet(states: seq<State>, events: seq<Event>, s: State, key: Key)
    returns (states': seq<State>, events': seq<Event>, s': State)
    requires Reaches(states, events, s) && Quiet(s, key)
    ensures Reaches(states', events', s') && s' == Move(s, key, Fetched(s.models[key]))
  {
    hide Validate, SpecOk, OrderOf, IsRun;
    var order := SomeOrderOf(s.models[key].value.spec);
    var e := Begin(key, s.models[key], order, 0);
    s' := Apply(s, e);
    states', events' := Then(states, events, s, e);
  }

  /** A pass on a missing Deployment, or one of its own with another spec, that is given up after the write. */
  lemma WritingPass(states: seq<State>, events: seq<Event>, s: State, key: Key)
    returns (states': seq<State>, events': seq<Event>, s': State)
    requires Reaches(states, events, s) && Quiet(s, key)
    requires key in s.deployments ==>
      && !NotMine(s.deployments[key].value.owners, OwnerOf(key, s.models[key].value))
      && s.deployments[key].value.spec != RenderedSpec(key, s.models[key].value.spec)
    ensures Reaches(states', events', s') && key in s'.deployments
    ensures DeploymentSettled(s'.deployments[key].value, key, s.models[key].value)
    ensures s' == PutDeployment(s, key, s'.deployments[key].value)
    ensures s'.deployments[key].value.generation ==
              if key in s.deployments then s.deployments[key].value.generation + 1 else 1
    ensures s'.deployments[key].value.status ==
              if key in s.deployments then s.deployments[key].value.status else NewDeploymentStatus
  {
    hide SpecOk, IsRun, PlanDeployment, NotMine, DeploymentSettled, RenderedSpec, Failing, Begun, OrderOf;
    var md, seen := s.models[key], Get(s.deployments, key);
    states', events', s' := BeginQuiet(states, events, s, key);
    var s1 := Apply(s', ReadDeployment(key, seen));
    states', events' := Then(states', events', s', ReadDeployment(key, seen));
    WritePlan(key, md.value, Value(seen));
    var s2 := Apply(s1, SettleDeployment(key, Works, 0));
    states', events' := Then(states', events', s1, SettleDeployment(key, Works, 0));
    s' := Apply(s2, GiveUp(key));
    states', events' := Then(states', events', s2, GiveUp(key));
    assert s'.passes == s.passes;
  }

  lemma WritePlan(key: Key, md: ModelDeployment, seen: Option<Deployment>)
    requires seen.Some? ==>
              !NotMine(seen.value.owners, OwnerOf(key, md)) && seen.value.spec != RenderedSpec(key, md.spec)
    ensures var plan := PlanDeployment(key, md, seen);
      && plan.Write? && DeploymentSettled(AcceptedDeployment(seen, plan.wanted), key, md)
      && (seen.Some? ==> plan.wanted.spec != seen.value.spec)
  {
    hide NotMine, RenderedSpec, Claim;
    PlanMeans(key, md, seen);
  }

  lemma LeavePlan(key: Key, md: ModelDeployment, d: Deployment)
    requires DeploymentSettled(d, key, md)
    ensures PlanDeployment(key, md, Some(d)) == Leave(d)
  {
    hide Claim, ChildLabels, RenderedSpec;
  }

  /** Reading any logged version that is settled, a pass goes on with it. */
  lemma GoesOnWithRead(states: seq<State>, events: seq<Event>, s: State, key: Key, d: Versioned<Deployment>)
    returns (states': seq<State>, events': seq<Event>, s': State)
    requires Reaches(states, events, s) && Quiet(s, key)
    requires DeploymentAt(key, d) in s.log && DeploymentSettled(d.value, key, s.models[key].value)
    ensures Reaches(states', events', s') && s' == Move(s, key, DeploymentDone(s.models[key], d))
  {
    hide SpecOk, IsRun, PlanDeployment, DeploymentSettled, Failing, Begun, OrderOf, Current;
    LeavePlan(key, s.models[key].value, d.value);
    states', events', s' := BeginQuiet(states, events, s, key);
    var s1 := Apply(s', ReadDeployment(key, Some(d)));
    states', events' := Then(states', events', s', ReadDeployment(key, Some(d)));
    s' := Apply(s1, SettleDeployment(key, Works, 0));
    states', events' := Then(states', events', s1, SettleDeployment(key, Works, 0));
    assert s'.passes == s.passes[key := DeploymentDone(s.models[key], d)];
  }

  /** The rest of a pass that finds no Service: its report is on the Deployment it went on with. */
  lemma ReportsOnHeld(states: seq<State>, events: seq<Event>, s: State, key: Key)
    returns (states': seq<State>, events': seq<Event>, s': State)
    requires Reaches(states, events, s) && key in s.passes && s.passes[key].DeploymentDone? && key !in s.services
    ensures Reaches(states', events', s') && s'.models == s.models && s'.deployments == s.deployments
    ensures key in s'.passes && s'.passes[key] == Observing(key, s.passes[key].md, s.passes[key].d.value, 0)
  {
    hide IsRun, PlanService, Failing, Observing, AcceptedService, Begun, OrderOf;
    var none: Option<Versioned<Service>> := None;
    var s1 := Apply(s, ReadService(key, none));
    states', events' := Then(states, events, s, ReadService(key, none));
    NewServicePlan(key, s.passes[key].md.value);
    s' := Apply(s1, SettleService(key, Works, "", 0));
    states', events' := Then(states', events', s1, SettleService(key, Works, "", 0));
  }

  lemma NewServicePlan(key: Key, md: ModelDeployment)
    ensures PlanService(key, md, None).Write?
  {
    ServicePlanMeans(key, md, None, "");
  }

  lemma ObservedShows(key: Key, md: ModelDeployment, d: Deployment)
    requires RolledOut(d, DesiredReplicas(md.spec))
    ensures Shows(md.(status := ObservedStatus(key, md, d, 0)))
  {
    hide ObservedStatus, ObservedReport, RolledOut, SaysAvailable;
    ObservedUpdates(key, md, d, 0);
    ControllerRuns.ObservedActive(key, md, d, 0);
    ReportShows(md, ObservedStatus(key, md, d, 0), ObservedReport(d, DesiredReplicas(md.spec)));
  }

  /** However old it is, a version that is settled and rolled out is enough to be shown as available. */
  lemma OutdatedPass(states: seq<State>, events: seq<Event>, s: State, key: Key, d: Versioned<Deployment>)
    returns (states': seq<State>, events': seq<Event>, s': State)
    requires Reaches(states, events, s) && Quiet(s, key) && key !in s.services
    requires s.models[key].value.status.observedGeneration != s.models[key].value.generation
    requires DeploymentAt(key, d) in s.log && DeploymentSettled(d.value, key, s.models[key].value)
    requires RolledOut(d.value, DesiredReplicas(s.models[key].value.spec))
    ensures Reaches(states', events', s') && s'.deployments == s.deployments && key in s'.models
    ensures SameGeneration(s'.models[key].value, s.models[key].value) && Shows(s'.models[key].value)
  {
    hide SpecOk, IsRun, DeploymentSettled, RolledOut, Current, ObservedStatus, ObservedReport, SaysAvailable;
    var md := s.models[key];
    states', events', s' := GoesOnWithRead(states, events, s, key, d);
    states', events', s' := ReportsOnHeld(states', events', s', key);
    ObservedShows(key, md.value, d.value);
    var s1 := s';
    s' := Apply(s1, WriteStatus(key, Works));
    states', events' := Then(states', events', s1, WriteStatus(key, Works));
  }

  lemma ReachedCurrent(states: seq<State>, events: seq<Event>, s: State)
    requires Reaches(states, events, s)
    ensures Current(s)
  {
    hide Apply, Enabled, PassSound;
    RunInv(states, events, |events|);
  }

  /** Everything of a settled Deployment but its rollout, and of a model but its generation. */
  lemma SettledStays(d: Deployment, rollout: DeploymentStatus, key: Key, md: ModelDeployment, md1: ModelDeployment)
    requires DeploymentSettled(d, key, md)
    ensures !NotMine(d.owners, OwnerOf(key, md))
    ensures md1.uid == md.uid && md1.spec == md.spec ==> DeploymentSettled(d.(status := rollout), key, md1)
    ensures d.spec.template.version == md.spec.version
  {
    hide ChildLabels, EffectiveResources;
  }

  /** Create, deploy and roll out: the first version of the model is up. */
  lemma FirstVersionUp(key: Key, uid: string, spec: ModelSpec)
    returns (states: seq<State>, events: seq<Event>, s: State)
    requires SpecOk(spec)
    ensures Reaches(states, events, s) && s.passes == map[] && s.services == map[]
    ensures key in s.models && s.models[key].value == ModelDeployment(uid, 1, false, spec, BlankStatus)
    ensures key in s.deployments && DeploymentSettled(s.deployments[key].value, key, s.models[key].value)
    ensures s.deployments[key].value.generation == 1 && RolledOut(s.deployments[key].value, DesiredReplicas(spec))
  {
    hide SpecOk, DeploymentSettled, IsRun;
    states, events, s := [Start], [], Start;
    assert Reaches(states, events, s) by { StartRuns(); }
    var create := CreateModel(key, uid, spec);
    var s1 := Apply(s, create);
    states, events := Then(states, events, s, create);
    ReachedCurrent(states, events, s1);
    states, events, s := WritingPass(states, events, s1, key);
    var r := DesiredReplicas(spec);
    var rollout := ReportRollout(key, DeploymentStatus(1, r, r, r, r, []));
    SettledStays(s.deployments[key].value, rollout.rollout, key, s1.models[key].value, s1.models[key].value);
    states, events := Then(states, events, s, rollout);
    s := Apply(s, rollout);
  }

  lemma StartRuns()
    ensures IsRun([Start], [])
  {
  }

  /** Change the spec and deploy it; what was stored before stays in the log. */
  lemma NextVersionWritten(states: seq<State>, events: seq<Event>, s: State, key: Key, spec: ModelSpec)
    returns (states': seq<State>, events': seq<Event>, s': State)
    requires Reaches(states, events, s) && key in s.models && !s.models[key].value.deleting && key !in s.passes
    requires SpecOk(spec)
    requires key in s.deployments && DeploymentSettled(s.deployments[key].value, key, s.models[key].value)
    requires spec.version != s.models[key].value.spec.version
    ensures Reaches(states', events', s') && s'.passes == s.passes && s'.services == s.services && key in s'.models
    ensures key in s'.deployments
    ensures s'.models[key].value == s.models[key].value.(spec := spec, generation := s.models[key].value.generation + 1)
    ensures DeploymentSettled(s'.deployments[key].value, key, s'.models[key].value)
    ensures s'.deployments[key].value.generation == s.deployments[key].value.generation + 1
    ensures s'.deployments[key].value.status == s.deployments[key].value.status
    ensures DeploymentAt(key, s.deployments[key]) in s'.log
  {
    hide SpecOk, DeploymentSettled, IsRun, NotMine;
    var change := ChangeSpec(key, spec);
    var s1 := Apply(s, change);
    states', events' := Then(states, events, s, change);
    ReachedCurrent(states', events', s1);
    var d := s.deployments[key].value;
    SettledStays(d, d.status, key, s.models[key].value, s.models[key].value);
    states', events', s' := WritingPass(states', events', s1, key);
  }

  /**
    Readiness can be out of date: go to another version and back, let the pass on the
    last change read the Deployment as it was before the first, and the model is shown
    as available at its current generation while the other version is being deployed.
  */
  lemma OutdatedReadiness(key: Key, uid: string, spec: ModelSpec, other: ModelSpec)
    returns (states: seq<State>, events: seq<Event>)
    requires SpecOk(spec) && SpecOk(other) && spec.version != other.version
    ensures IsRun(states, events) && states[0] == Start
    ensures var s := states[|events|];
      && key in s.models && s.models[key].value.spec == spec && s.models[key].value.generation == 3
      && Shows(s.models[key].value)
      && key in s.deployments && s.deployments[key].value.spec.template.version == other.version
      && s.deployments[key].value.status.observedGeneration < s.deployments[key].value.generation
  {
    hide SpecOk, DeploymentSettled, IsRun, Shows, NotMine;
    var s;
    states, events, s := FirstVersionUp(key, uid, spec);
    var was, first := s.deployments[key], s.models[key].value;
    assert was.value.status.observedGeneration == 1;
    states, events, s := NextVersionWritten(states, events, s, key, other);
    var d := s.deployments[key].value;
    SettledStays(d, d.status, key, s.models[key].value, s.models[key].value);
    var back := ChangeSpec(key, spec);
    var s1 := Apply(s, back);
    states, events := Then(states, events, s, back);
    ReachedCurrent(states, events, s1);
    SettledStays(was.value, was.value.status, key, first, s1.models[key].value);
    states, events, s := OutdatedPass(states, events, s1, key, was);
  }

  /** The same on concrete specs. */
  lemma OutdatedReadinessHappens() returns (states: seq<State>, events: seq<Event>, key: Key)
    ensures IsRun(states, events) && states[0] == Start
    ensures var s := states[|events|];
      && key in s.models && s.models[key].value.spec.version == "1" && Shows(s.models[key].value)
      && key in s.deployments && s.deployments[key].value.spec.template.version == "2"
  {
    hide IsRun, Shows;
    key := Key("default", "m");
    var spec := ModelSpec("m", "1", "i", 0, None, Resources(map[], map[]));
    var other := spec.(version := "2");
    assert "1"[0] != "2"[0];
    assert !IsSpace("m"[0]) && !IsSpace("1"[0]) && !IsSpace("2"[0]) && !IsSpace("i"[0]);
    states, events := OutdatedReadiness(key, "u", spec, other);
  }
}
