/**
  Readiness while the calls of a pass are interleaved with everyone else's: where a
  shown readiness comes from, exactly when the Deployment it is taken from was the
  stored one, and that a pass never credits the change it has just made.
*/
module Readiness {
  import opened Redis
  import opened ModelSpecs
  import opened Conditions
  import opened Ownership
  import opened Reconciler
  import opened Convergence
  import opened InterleavedController
  import ControllerRuns

  /** The status speaks about the present spec, and says that it is available. */
  predicate Shows(md: ModelDeployment) {
    md.status.observedGeneration == md.generation && SaysAvailable(md.status)
  }

  /** Step m settles the Deployment of the pass on md, which goes on with the object d. */
  ghost predicate GoesOn(states: seq<State>, events: seq<Event>, m: int, key: Key,
                         md: Versioned<ModelDeployment>, d: Versioned<Deployment>) {
    && 0 <= m < |events| < |states|
    && events[m].SettleDeployment? && events[m].key == key
    && key in states[m].passes && states[m].passes[key].SawDeployment? && states[m].passes[key].md == md
    && key in states[m + 1].passes && states[m + 1].passes[key] == DeploymentDone(md, d)
  }

  /** What was read before step m is, by its revision, still what is stored. */
  predicate ReadIsCurrent(s: State, key: Key) {
    key in s.passes && s.passes[key].SawDeployment? && Unchanged(Get(s.deployments, key), s.passes[key].seenDeployment)
  }

  // ---------------------------------------------------------------- exactly when the stored object is used

  lemma SettlesStoredExactly(s: State, key: Key, p: Progress, fault: Fault, now: int)
    requires LogSound(s) && p.SawDeployment? && PassSound(s, key, p)
    requires SettledDeployment(s, key, p, fault, now).DeploymentDone?
    ensures Get(StoreDeployment(s, key, p, fault).deployments, key) == Some(SettledDeployment(s, key, p, fault, now).d)
       <==> Unchanged(Get(s.deployments, key), p.seenDeployment)
  {
    hide LogSound, PlanDeployment, AcceptedDeployment, Failing, DeploymentSettled, NotMine, ControllerRuns.Sane;
    SameRevisionSameObject(s, key);
    PlanMeans(key, p.md.value, Value(p.seenDeployment));
    var plan := PlanDeployment(key, p.md.value, Value(p.seenDeployment));
    FailingIsReport(p.md, "DeploymentReconcileFailed", if plan.Refuse? then plan.error else ServerError, now);
  }

  lemma FailingIsReport(md: Versioned<ModelDeployment>, reason: string, error: ChildError, now: int)
    ensures Failing(md, reason, error, now).HasReport?
    ensures Failing(md, reason, error, now).report.available.status == No
    ensures var status := Failing(md, reason, error, now).status;
      status.activeModel == md.value.status.activeModel && status.activeVersion == md.value.status.activeVersion
    ensures Failing(md, reason, error, now).md == md
  {
    hide Reported;
  }

  /** Over every run: the object a pass goes on with is the stored one exactly if what it read was current. */
  lemma GoesOnWithStoredExactly(states: seq<State>, events: seq<Event>, m: nat, key: Key,
                                md: Versioned<ModelDeployment>, d: Versioned<Deployment>)
    requires IsRun(states, events) && states[0] == Start && GoesOn(states, events, m, key, md, d)
    ensures Get(states[m + 1].deployments, key) == Some(d) <==> ReadIsCurrent(states[m], key)
  {
    hide LogSound, PassSound, StoreDeployment, SettledDeployment, StoreService, SettledService, Begun, OrderOf;
    hide ApplyWriteStatus;
    RunInv(states, events, m);
    assert Next(states[m], events[m], states[m + 1]);
    var e := events[m];
    SettlesStoredExactly(states[m], key, states[m].passes[key], e.fault, e.now);
  }

  // ---------------------------------------------------------------- where a shown readiness comes from

  /** Step m goes on with a Deployment that serves just the version the pass is about. */
  ghost predicate Credits(states: seq<State>, events: seq<Event>, m: int, key: Key,
                          md: Versioned<ModelDeployment>, d: Versioned<Deployment>) {
    && GoesOn(states, events, m, key, md, d)
    && ControllerRuns.Serves(d.value, md.value.spec.model, md.value.spec.version)
  }

  ghost predicate Went(states: seq<State>, events: seq<Event>, n: nat, key: Key,
                       md: Versioned<ModelDeployment>, d: Versioned<Deployment>) {
    exists m :: 0 <= m < n && GoesOn(states, events, m, key, md, d)
  }

  /** Before state n some pass on this generation of the model credited its version. */
  ghost predicate Credited(states: seq<State>, events: seq<Event>, n: nat, key: Key, md: ModelDeployment) {
    exists m, v, d :: 0 <= m < n && Credits(states, events, m, key, v, d) && SameGeneration(v.value, md)
  }

  predicate SameGeneration(a: ModelDeployment, b: ModelDeployment) { a.spec == b.spec && a.generation == b.generation }

  ghost predicate PassTraced(states: seq<State>, events: seq<Event>, n: nat, key: Key, p: Progress) {
    match p
    case DeploymentDone(md, d) => Went(states, events, n, key, md, d)
    case SawService(md, d, _) => Went(states, events, n, key, md, d)
    case HasReport(md, _, report) => report.available.status == Yes ==> Credited(states, events, n, key, md.value)
    case _ => true
  }

  ghost predicate Traced(states: seq<State>, events: seq<Event>, n: nat, key: Key)
    requires n < |states|
  {
    && (key in states[n].passes ==> PassTraced(states, events, n, key, states[n].passes[key]))
    && forall md :: ModelAt(key, md) in states[n].log && Shows(md.value) ==> Credited(states, events, n, key, md.value)
  }

  /** What can precede a pass in a given place. */
  ghost predicate Precedes(s: State, e: Event, key: Key, p: Progress) {
    match p
    case DeploymentDone(md, _) =>
      e.SettleDeployment? && e.key == key && key in s.passes && s.passes[key].SawDeployment? && s.passes[key].md == md
    case SawService(md, d, _) => key in s.passes && s.passes[key] == DeploymentDone(md, d)
    case HasReport(md, _, report) =>
      report.available.status == Yes ==>
        && key in s.passes && s.passes[key].SawService? && s.passes[key].md == md
        && RolledOut(s.passes[key].d.value, DesiredReplicas(md.value.spec))
    case _ => true
  }

  lemma BegunIs(md: Versioned<ModelDeployment>, order: Order, now: int)
    requires OrderOf(order, md.value.spec.resources)
    ensures var p := Begun(md, order, now); p.Fetched? || (p.HasReport? && p.report.available.status == No)
  {
    hide Validate, Reporting, OrderOf;
  }

  lemma SettledDeploymentIs(s: State, key: Key, p: Progress, fault: Fault, now: int)
    requires p.SawDeployment?
    ensures var p' := SettledDeployment(s, key, p, fault, now);
      p'.md == p.md && (p'.DeploymentDone? || (p'.HasReport? && p'.report.available.status == No))
  {
    hide PlanDeployment, AcceptedDeployment, Failing;
    var plan := PlanDeployment(key, p.md.value, Value(p.seenDeployment));
    FailingIsReport(p.md, "DeploymentReconcileFailed", if plan.Refuse? then plan.error else ServerError, now);
  }

  lemma SettledServiceIs(s: State, key: Key, p: Progress, fault: Fault, now: int)
    requires p.SawService?
    ensures var p' := SettledService(s, key, p, fault, now);
      && p'.HasReport? && p'.md == p.md
      && (p'.report.available.status == Yes ==> RolledOut(p.d.value, DesiredReplicas(p.md.value.spec)))
      && (!RolledOut(p.d.value, DesiredReplicas(p.md.value.spec)) ==>
            && p'.status.activeModel == p.md.value.status.activeModel
            && p'.status.activeVersion == p.md.value.status.activeVersion)
  {
    hide PlanService, StoresService, Failing, RolledOut, ObservedStatus, ObservedReport;
    var plan := PlanService(key, p.md.value, Value(p.seenService));
    FailingIsReport(p.md, "ServiceReconcileFailed", if plan.Refuse? then plan.error else ServerError, now);
    ControllerRuns.ObservedActive(key, p.md.value, p.d.value, now);
  }

  lemma AdvancedFrom(s: State, e: Event)
    requires Enabled(s, e) && Advances(e)
    ensures Precedes(s, e, e.key, Advanced(s, e))
  {
    hide Begun, SettledDeployment, SettledService, RolledOut, OrderOf, Failing;
    match e {
      case Begin(_, cached, order, now) => BegunIs(cached, order, now);
      case SettleDeployment(key, fault, now) => SettledDeploymentIs(s, key, s.passes[key], fault, now);
      case SettleService(key, fault, _, now) => SettledServiceIs(s, key, s.passes[key], fault, now);
      case FailRead(key, now) =>
        FailingIsReport(s.passes[key].md, "DeploymentReconcileFailed", ServerError, now);
        FailingIsReport(s.passes[key].md, "ServiceReconcileFailed", ServerError, now);
      case _ =>
    }
  }

  /** Where a pass came from in one step. */
  lemma PassOrigin(s: State, e: Event, key: Key)
    requires Enabled(s, e) && key in Apply(s, e).passes
    ensures var p := Apply(s, e).passes[key];
      (key in s.passes && s.passes[key] == p) || Precedes(s, e, key, p)
  {
    hide Apply, Enabled, Advanced, Precedes;
    StepPasses(s, e, key);
    if Advances(e) && key == e.key { AdvancedFrom(s, e); }
  }

  lemma ReportShows(md: ModelDeployment, status: ModelStatus, report: Report)
    requires Updates(md, status, report)
    ensures SaysAvailable(status) <==> report.available.status == Yes
  {
    hide Find, Keyed;
  }

  /** Where a newly stored model that shows readiness came from. */
  lemma ModelOrigin(s: State, e: Event, key: Key, md: Versioned<ModelDeployment>)
    requires Inv(s) && Enabled(s, e) && ModelAt(key, md) in Apply(s, e).log && ModelAt(key, md) !in s.log
    requires Shows(md.value)
    ensures e.key == key
    ensures || (key in s.models && Shows(s.models[key].value) && SameGeneration(s.models[key].value, md.value))
            || (&& key in s.passes && s.passes[key].HasReport? && s.passes[key].report.available.status == Yes
                && SameGeneration(s.passes[key].md.value, md.value))
  {
    hide StoreDeployment, StoreService, Begun, SettledDeployment, SettledService, OrderOf, LogSound, SaysAvailable;
    hide Updates;
    if Advances(e) {
      StoredModels(s, e, key, md);
    } else if e.WriteStatus? {
      var p := s.passes[e.key];
      assert PassSound(s, e.key, p);
      ReportShows(p.md.value, p.status, p.report);
    } else if e.CreateModel? {
      BlankShowsNothing();
    } else if e.ChangeSpec? {
      LoggedCurrent(s, e.key);
      LoggedModel(s, ModelAt(e.key, s.models[e.key]));
    }
  }

  lemma BlankShowsNothing()
    ensures !SaysAvailable(BlankStatus)
  {
  }

  /** Steps of a pass before its end store no model. */
  lemma StoredModels(s: State, e: Event, key: Key, md: Versioned<ModelDeployment>)
    requires Enabled(s, e) && Advances(e) && ModelAt(key, md) in Apply(s, e).log
    ensures ModelAt(key, md) in s.log
  {
    hide Begun, SettledDeployment, SettledService, OrderOf, PlanDeployment, PlanService, AcceptedDeployment;
    hide AcceptedService;
  }

  lemma WentOn(states: seq<State>, events: seq<Event>, n: nat, key: Key, p: Progress)
    requires PassTraced(states, events, n, key, p)
    ensures PassTraced(states, events, n + 1, key, p)
  {
    hide GoesOn, Credits;
  }

  lemma StepPassTraced(states: seq<State>, events: seq<Event>, n: nat, key: Key)
    requires n < |events| == |states| - 1 && Next(states[n], events[n], states[n + 1]) && Inv(states[n])
    requires Traced(states, events, n, key) && key in states[n + 1].passes
    ensures PassTraced(states, events, n + 1, key, states[n + 1].passes[key])
  {
    hide Apply, Enabled, LogSound, Credits, RolledOut, ControllerRuns.Serves, RenderedSpec, Shows;
    var s, e, p := states[n], events[n], states[n + 1].passes[key];
    PassOrigin(s, e, key);
    if key in s.passes && s.passes[key] == p {
      WentOn(states, events, n, key, p);
    } else {
      match p {
        case DeploymentDone(md, d) => assert GoesOn(states, events, n, key, md, d);
        case SawService(md, d, _) => assert PassTraced(states, events, n, key, s.passes[key]);
        case HasReport(md, _, report) =>
          if report.available.status == Yes {
            assert PassSound(s, key, s.passes[key]) && PassTraced(states, events, n, key, s.passes[key]);
            CreditsAtLast(states, events, n, key, s.passes[key]);
          }
        case _ =>
      }
    }
  }

  lemma CreditsAtLast(states: seq<State>, events: seq<Event>, n: nat, key: Key, p: Progress)
    requires p.SawService? && PassTraced(states, events, n, key, p)
    requires p.d.value.spec == RenderedSpec(key, p.md.value.spec)
    requires RolledOut(p.d.value, DesiredReplicas(p.md.value.spec))
    ensures Credited(states, events, n + 1, key, p.md.value)
  {
    hide RolledOut, ControllerRuns.Serves, RenderedSpec, GoesOn;
    var m :| 0 <= m < n && GoesOn(states, events, m, key, p.md, p.d);
    ControllerRuns.RenderedServes(p.d.value, key, p.md.value.spec);
    assert Credits(states, events, m, key, p.md, p.d);
  }

  lemma CreditedSame(states: seq<State>, events: seq<Event>, n: nat, key: Key, a: ModelDeployment, b: ModelDeployment)
    requires Credited(states, events, n, key, a) && SameGeneration(a, b)
    ensures Credited(states, events, n + 1, key, b)
  {
    hide Credits;
  }

  lemma StepModelTraced(states: seq<State>, events: seq<Event>, n: nat, key: Key, md: Versioned<ModelDeployment>)
    requires n < |events| == |states| - 1 && Next(states[n], events[n], states[n + 1]) && Inv(states[n])
    requires Traced(states, events, n, key) && ModelAt(key, md) in states[n + 1].log && Shows(md.value)
    ensures Credited(states, events, n + 1, key, md.value)
  {
    hide Apply, Enabled, LogSound, PassSound, Credited, Shows;
    var s := states[n];
    if ModelAt(key, md) in s.log {
      CreditedSame(states, events, n, key, md.value, md.value);
    } else {
      ModelOrigin(s, events[n], key, md);
      LoggedCurrent(s, key);
      if key in s.models && Shows(s.models[key].value) && SameGeneration(s.models[key].value, md.value) {
        CreditedSame(states, events, n, key, s.models[key].value, md.value);
      } else {
        CreditedSame(states, events, n, key, s.passes[key].md.value, md.value);
      }
    }
  }

  lemma {:induction false} RunTraced(states: seq<State>, events: seq<Event>, n: nat, key: Key)
    requires IsRun(states, events) && states[0] == Start && n < |states|
    ensures Traced(states, events, n, key)
  {
    hide Apply, Enabled, PassTraced, Credited, Shows, Inv;
    if n > 0 {
      RunTraced(states, events, n - 1, key);
      RunInv(states, events, n - 1);
      assert Next(states[n - 1], events[n - 1], states[n]);
      if key in states[n].passes { StepPassTraced(states, events, n - 1, key); }
      forall md | ModelAt(key, md) in states[n].log && Shows(md.value)
        ensures Credited(states, events, n, key, md.value)
      {
        StepModelTraced(states, events, n - 1, key, md);
      }
    }
  }

  /**
    Over every run: a model shown as available at its current generation was credited
    by a pass on just this generation, which went on with a Deployment d that has its
    version fully rolled out.  That d was the stored one when it was settled exactly if
    what the pass had read was current; then the cluster was serving this version.
  */
  lemma ReadinessExactly(states: seq<State>, events: seq<Event>, n: nat, key: Key)
    returns (m: nat, v: Versioned<ModelDeployment>, d: Versioned<Deployment>)
    requires IsRun(states, events) && states[0] == Start && n < |states|
    requires key in states[n].models && Shows(states[n].models[key].value)
    ensures m < n && GoesOn(states, events, m, key, v, d) && SameGeneration(v.value, states[n].models[key].value)
    ensures var spec := states[n].models[key].value.spec; ControllerRuns.Serves(d.value, spec.model, spec.version)
    ensures Get(states[m + 1].deployments, key) == Some(d) <==> ReadIsCurrent(states[m], key)
    ensures ReadIsCurrent(states[m], key) ==>
              var spec := states[n].models[key].value.spec; ServedAt(states[m + 1], key, spec.model, spec.version)
  {
    hide Apply, Enabled, Inv, Shows, GoesOn, ControllerRuns.Serves, ReadIsCurrent, PassTraced;
    RunTraced(states, events, n, key);
    RunInv(states, events, n);
    ModelIsLogged(states[n], key);
    var md := states[n].models[key].value;
    var i, w, c :| 0 <= i < n && Credits(states, events, i, key, w, c) && SameGeneration(w.value, md);
    m, v, d := i, w, c;
    GoesOnWithStoredExactly(states, events, m, key, v, d);
  }

  lemma ModelIsLogged(s: State, key: Key)
    requires Inv(s)
    ensures key in s.models ==> ModelAt(key, s.models[key]) in s.log
  {
    hide PassSound;
    LoggedCurrent(s, key);
  }

  // ---------------------------------------------------------------- a pass that changes the Deployment

  /** The step stores a Deployment that is new or has another spec. */
  ghost predicate ChangesSpec(s: State, s': State, key: Key) {
    key in s'.deployments && (key !in s.deployments || s'.deployments[key].value.spec != s.deployments[key].value.spec)
  }

  /** The rollout it has seen is not that of the spec it asked for, so nothing is credited. */
  ghost predicate Behind(p: Progress) {
    match p
    case DeploymentDone(_, d) => d.value.status.observedGeneration < d.value.generation
    case SawService(_, d, _) => d.value.status.observedGeneration < d.value.generation
    case HasReport(md, status, report) =>
      && report.available.status != Yes
      && status.activeModel == md.value.status.activeModel && status.activeVersion == md.value.status.activeVersion
    case _ => false
  }

  lemma ChangedIsBehind(s: State, key: Key, p: Progress, fault: Fault, now: int)
    requires LogSound(s) && p.SawDeployment? && PassSound(s, key, p)
    requires ChangesSpec(s, StoreDeployment(s, key, p, fault), key)
    ensures Behind(SettledDeployment(s, key, p, fault, now))
  {
    hide LogSound, PlanDeployment, Failing, DeploymentSettled, NotMine;
    SameRevisionSameObject(s, key);
    if p.seenDeployment.Some? { LoggedSane(s, DeploymentAt(key, p.seenDeployment.value)); }
    FailingIsReport(p.md, "DeploymentReconcileFailed", ServerError, now);
  }

  lemma AdvancedBehind(s: State, e: Event)
    requires Enabled(s, e) && Advances(e) && !e.Begin? && Behind(s.passes[e.key])
    ensures Behind(Advanced(s, e))
  {
    hide Begun, SettledDeployment, SettledService, OrderOf, Failing;
    match e {
      case SettleService(key, fault, _, now) => SettledServiceIs(s, key, s.passes[key], fault, now);
      case FailRead(key, now) =>
        FailingIsReport(s.passes[key].md, "DeploymentReconcileFailed", ServerError, now);
        FailingIsReport(s.passes[key].md, "ServiceReconcileFailed", ServerError, now);
      case _ =>
    }
  }

  lemma StepBehind(s: State, e: Event, key: Key)
    requires Enabled(s, e) && key in Apply(s, e).passes && (key in s.passes ==> Behind(s.passes[key]))
    requires !(e.Begin? && e.key == key)
    ensures Behind(Apply(s, e).passes[key])
  {
    hide Apply, Advanced, Behind, OrderOf;
    StepPasses(s, e, key);
    if Advances(e) && key == e.key { AdvancedBehind(s, e); }
  }

  lemma {:induction false} StaysBehind(states: seq<State>, events: seq<Event>, m: nat, n: nat, key: Key)
    requires IsRun(states, events) && states[0] == Start && m < n < |states|
    requires events[m].SettleDeployment? && events[m].key == key && ChangesSpec(states[m], states[m + 1], key)
    requires forall i :: m < i < n ==> !(events[i].Begin? && events[i].key == key)
    ensures key in states[n].passes ==> Behind(states[n].passes[key])
    decreases n
  {
    hide StoreDeployment, SettledDeployment, StoreService, SettledService, Begun, OrderOf, ApplyWriteStatus, Behind;
    hide LogSound, PassSound;
    var s, e := states[n - 1], events[n - 1];
    assert Next(s, e, states[n]);
    if n == m + 1 {
      RunInv(states, events, m);
      ChangedIsBehind(s, key, s.passes[key], e.fault, e.now);
    } else {
      StaysBehind(states, events, m, n - 1, key);
      if key in states[n].passes { StepBehind(s, e, key); }
    }
  }

  /**
    No stale readiness while others act: a pass that created the Deployment or changed
    its spec never comes to report it as available, and leaves the active version alone.
  */
  lemma ChangeIsNeverReady(states: seq<State>, events: seq<Event>, m: nat, n: nat, key: Key)
    requires IsRun(states, events) && states[0] == Start && m < n < |states|
    requires events[m].SettleDeployment? && events[m].key == key && ChangesSpec(states[m], states[m + 1], key)
    requires forall i :: m < i < n ==> !(events[i].Begin? && events[i].key == key)
    requires key in states[n].passes && states[n].passes[key].HasReport?
    ensures var p := states[n].passes[key];
      && p.report.available.status != Yes && !SaysAvailable(p.status)
      && p.status.activeModel == p.md.value.status.activeModel
      && p.status.activeVersion == p.md.value.status.activeVersion
  {
    hide Apply, Enabled, LogSound, ActiveSound, Served, Updates, SaysAvailable;
    StaysBehind(states, events, m, n, key);
    RunInv(states, events, n);
    var p := states[n].passes[key];
    assert PassSound(states[n], key, p);
    ReportShows(p.md.value, p.status, p.report);
  }
}
