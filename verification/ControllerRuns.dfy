/**
  Whole runs of the controller in a cluster where others act too: users change
  models, the Deployment controller reports rollouts, and anyone may edit, add or
  delete the children at any time.
*/
module ControllerRuns {
  import opened ModelSpecs
  import opened Conditions
  import opened Ownership
  import opened Reconciler
  import opened Convergence

  datatype Event =
    | Reconcile(key: Key, x: Inputs)
    | CreateModel(key: Key, uid: string, spec: ModelSpec)
    | ChangeSpec(key: Key, spec: ModelSpec)
    | MarkDeleted(key: Key)
    | RemoveModel(key: Key)
    | ReportRollout(key: Key, status: DeploymentStatus)  // the Deployment controller
    | EditDeployment(key: Key, owners: seq<OwnerRef>, labels: Labels, edited: DeploymentSpec)  // creates it if missing
    | RemoveDeployment(key: Key)
    | EditService(key: Key, service: Service)
    | RemoveService(key: Key)

  ghost predicate Enabled(cl: Cluster, e: Event) {
    match e
    case Reconcile(key, x) => OrderFits(cl, key, x.order)
    case CreateModel(key, _, _) => key !in cl.models
    case ChangeSpec(key, spec) => key in cl.models && spec != cl.models[key].spec
    case MarkDeleted(key) => key in cl.models
    case ReportRollout(key, status) =>
      key in cl.deployments && status.observedGeneration <= cl.deployments[key].generation
    case _ => true
  }

  function Apply(cl: Cluster, e: Event): Cluster
    requires Enabled(cl, e)
  {
    match e
    case Reconcile(key, x) => ReconcilePass(cl, key, x).cluster
    case CreateModel(key, uid, spec) =>
      cl.(models := cl.models[key := ModelDeployment(uid, 1, false, spec, BlankStatus)])
    case ChangeSpec(key, spec) =>
      cl.(models := cl.models[key := cl.models[key].(spec := spec, generation := cl.models[key].generation + 1)])
    case MarkDeleted(key) => cl.(models := cl.models[key := cl.models[key].(deleting := true)])
    case RemoveModel(key) => cl.(models := cl.models - {key})
    case ReportRollout(key, status) => cl.(deployments := cl.deployments[key := cl.deployments[key].(status := status)])
    case EditDeployment(key, owners, labels, spec) =>
      StoredDeployment(cl, key, Deployment(owners, labels, 0, spec, NewDeploymentStatus))
    case RemoveDeployment(key) => cl.(deployments := cl.deployments - {key})
    case EditService(key, service) => cl.(services := cl.services[key := service])
    case RemoveService(key) => cl.(services := cl.services - {key})
  }

  ghost predicate Next(cl: Cluster, e: Event, cl': Cluster) { Enabled(cl, e) && cl' == Apply(cl, e) }

  ghost predicate IsRun(states: seq<Cluster>, events: seq<Event>) {
    && |states| == |events| + 1
    && forall i {:trigger events[i]} :: 0 <= i < |events| ==> Next(states[i], events[i], states[i + 1])
  }

  const Nothing := Cluster(map[], map[], map[], 0, 0, 0)

  // ---------------------------------------------------------------- the invariant

  ghost predicate Sane(d: Deployment) { d.generation >= 1 && d.status.observedGeneration <= d.generation }

  /** A status is blank, or coherent at the generation it was written for. */
  ghost predicate StatusSane(md: ModelDeployment) {
    && Keyed(md.status.conditions)
    && md.status.observedGeneration <= md.generation
    && (md.status == BlankStatus || Coherent(md.status.conditions, md.status.observedGeneration))
  }

  ghost predicate Inv(cl: Cluster) {
    && (forall k :: k in cl.deployments ==> Sane(cl.deployments[k]))
    && (forall k :: k in cl.models ==> StatusSane(cl.models[k]))
  }

  lemma StoredSane(cl: Cluster, key: Key, d: Deployment)
    requires key in cl.deployments ==> Sane(cl.deployments[key])
    ensures Sane(StoredDeployment(cl, key, d).deployments[key])
  {
  }

  /** The Deployment step of a pass, seen from the generation. */
  lemma EnsuredSane(cl: Cluster, key: Key, md: ModelDeployment, faults: Faults)
    requires key in cl.deployments ==> Sane(cl.deployments[key])
    ensures var r := EnsureDeployment(cl, key, md, faults);
      key in r.cluster.deployments ==>
        && Sane(r.cluster.deployments[key])
        && (key in cl.deployments && r.cluster.deployments[key].spec == cl.deployments[key].spec ==>
              && r.cluster.deployments[key].generation == cl.deployments[key].generation
              && r.cluster.deployments[key].status == cl.deployments[key].status)
        && (key !in cl.deployments || r.cluster.deployments[key].spec != cl.deployments[key].spec ==>
              r.cluster.deployments[key].status.observedGeneration < r.cluster.deployments[key].generation)
  {
    hide Claim, MutatedDeployment;
  }

  lemma ReconcileSane(cl: Cluster, key: Key, x: Inputs)
    requires Inv(cl) && OrderFits(cl, key, x.order)
    ensures Inv(ReconcilePass(cl, key, x).cluster)
  {
    hide ReconcilePass, EnsureDeployment, EnsureService, OrderFits, Coherent, Keyed, Find, Sane, DeploymentSettled;
    hide ServiceSettled;
    var cl' := ReconcilePass(cl, key, x).cluster;
    WrittenStatusCoherent(cl, key, x);
    forall k | k in cl'.models ensures StatusSane(cl'.models[k]) {
      assert StatusSane(cl.models[k]);
    }
    forall k | k in cl'.deployments ensures Sane(cl'.deployments[k]) {
      if k == key {
        PassChildren(cl, key, x);
        if ReachesChildren(cl, key, x) {
          EnsuredSane(cl, key, cl.models[key], x.faults);
        }
      } else {
        PassFrame(cl, key, x, k);
      }
    }
  }

  lemma StepInv(cl: Cluster, e: Event, cl': Cluster)
    requires Inv(cl) && Next(cl, e, cl')
    ensures Inv(cl')
  {
    hide ReconcilePass, Coherent, StoredDeployment;
    match e {
      case Reconcile(key, x) => ReconcileSane(cl, key, x);
      case EditDeployment(key, owners, labels, spec) =>
        EditSane(cl, key, Deployment(owners, labels, 0, spec, NewDeploymentStatus));
      case _ =>
    }
  }

  lemma EditSane(cl: Cluster, key: Key, d: Deployment)
    requires Inv(cl)
    ensures Inv(StoredDeployment(cl, key, d))
  {
    hide Coherent, Keyed;
    StoredSane(cl, key, d);
  }

  /** In every reachable cluster each status is blank or coherent, and no rollout is ahead of its generation. */
  lemma {:induction false} RunInv(states: seq<Cluster>, events: seq<Event>, n: nat)
    requires IsRun(states, events) && states[0] == Nothing && n < |states|
    ensures Inv(states[n])
  {
    hide Apply, Enabled;
    if n > 0 {
      RunInv(states, events, n - 1);
      assert Next(states[n - 1], events[n - 1], states[n]);
      StepInv(states[n - 1], events[n - 1], states[n]);
    }
  }

  // ---------------------------------------------------------------- readiness

  /**
    The Deployment runs this model version, and its current generation is fully rolled
    out: as many pods as asked for, all of them updated, available and ready.
  */
  ghost predicate Serves(d: Deployment, model: string, version: string) {
    && d.spec.template.model == model && d.spec.template.version == version
    && d.status.observedGeneration == d.generation
    && d.status.replicas == d.spec.replicas && d.status.updated == d.spec.replicas
    && d.status.available == d.spec.replicas && d.status.ready == d.spec.replicas
  }

  lemma RenderedServes(d: Deployment, key: Key, spec: ModelSpec)
    requires d.spec == RenderedSpec(key, spec) && RolledOut(d, DesiredReplicas(spec))
    ensures Serves(d, spec.model, spec.version)
  {
    hide ChildLabels, EffectiveResources;
  }

  lemma ObservedActive(key: Key, md: ModelDeployment, d: Deployment, now: int)
    ensures var status := ObservedStatus(key, md, d, now);
      var up := RolledOut(d, DesiredReplicas(md.spec));
      && (!up ==> status.activeModel == md.status.activeModel && status.activeVersion == md.status.activeVersion)
      && (up ==> status.activeModel == md.spec.model && status.activeVersion == md.spec.version)
      && (up <==> ObservedReport(d, DesiredReplicas(md.spec)).available.status == Yes)
      && (up ==> d.status.observedGeneration == d.generation)
  {
    hide Reported, TerminalFailure;
  }

  /** What a pass credits: readiness of an unchanged, rendered, rolled-out Deployment, or nothing. */
  ghost predicate Credited(cl: Cluster, cl': Cluster, key: Key) {
    && key in cl.models && key in cl.deployments && key in cl'.deployments
    && cl'.deployments[key].spec == cl.deployments[key].spec == RenderedSpec(key, cl.models[key].spec)
    && cl'.deployments[key].status == cl.deployments[key].status
    && cl'.deployments[key].generation == cl.deployments[key].generation
    && Serves(cl'.deployments[key], cl.models[key].spec.model, cl.models[key].spec.version)
  }

  lemma VerdictCredits(cl: Cluster, key: Key, x: Inputs)
    requires Inv(cl) && OrderFits(cl, key, x.order)
    ensures var v, cl' := VerdictOf(cl, key, x), ReconcilePass(cl, key, x).cluster;
      v.Wants? ==>
        var md := cl.models[key];
        if v.report.available.status == Yes then
          Credited(cl, cl', key) && v.status.activeModel == md.spec.model && v.status.activeVersion == md.spec.version
        else v.status.activeModel == md.status.activeModel && v.status.activeVersion == md.status.activeVersion
  {
    hide ReconcilePass, EnsureDeployment, EnsureService, Validate, OrderOf, ObservedReport, ObservedStatus;
    hide RolledOut, Reported;
    hide ChildLabels, EffectiveResources, Sane, StatusSane;
    var v := VerdictOf(cl, key, x);
    PassChildren(cl, key, x);
    if v.Wants? && ReachesChildren(cl, key, x) {
      var md := cl.models[key];
      var d := EnsureDeployment(cl, key, md, x.faults);
      DeploymentStep(cl, key, md, x.faults);
      if d.error.None? {
        ServiceStep(d.cluster, key, md, x.faults, x.granted);
        EnsuredSane(cl, key, md, x.faults);
        ObservedActive(key, md, d.cluster.deployments[key], x.now);
        if RolledOut(d.cluster.deployments[key], DesiredReplicas(md.spec)) {
          RenderedServes(d.cluster.deployments[key], key, md.spec);
        }
      }
    }
  }

  /**
    No stale readiness: a pass that creates the Deployment or changes its spec never
    records Available, and it leaves the active version alone.
  */
  lemma NoStaleReadiness(cl: Cluster, key: Key, x: Inputs, cl': Cluster)
    requires Inv(cl) && Next(cl, Reconcile(key, x), cl') && key in cl.models
    requires key in cl'.deployments && (key !in cl.deployments || cl'.deployments[key].spec != cl.deployments[key].spec)
    ensures key in cl'.models
    ensures var status, status' := cl.models[key].status, cl'.models[key].status;
      && status'.activeModel == status.activeModel && status'.activeVersion == status.activeVersion
      && (status' != status ==>
            Find(status'.conditions, Available).Some? && Find(status'.conditions, Available).value.cell.status != Yes)
  {
    hide ReconcilePass, VerdictOf, OrderFits, Find, Keyed, Inv, RenderedSpec;
    PassModels(cl, key, x);
    VerdictUpdates(cl, key, x);
    VerdictCredits(cl, key, x);
  }

  /** The active version changes only in a pass that credits it, or is blank because the model is new. */
  lemma ActiveStep(cl: Cluster, e: Event, cl': Cluster, key: Key)
    requires Inv(cl) && Next(cl, e, cl') && key in cl'.models
    ensures var status' := cl'.models[key].status;
      || (key in cl.models && status'.activeModel == cl.models[key].status.activeModel
          && status'.activeVersion == cl.models[key].status.activeVersion)
      || (e.CreateModel? && e.key == key && status' == BlankStatus)
      || (e.Reconcile? && e.key == key && key in cl'.deployments
          && Serves(cl'.deployments[key], status'.activeModel, status'.activeVersion))
  {
    hide ReconcilePass, VerdictOf, OrderFits, Find, Keyed, Inv, StoredDeployment, Serves, RenderedSpec;
    if e.Reconcile? {
      PassModels(cl, e.key, e.x);
      VerdictCredits(cl, e.key, e.x);
    } else {
      EditKeepsModels(cl, e);
    }
  }

  lemma EditKeepsModels(cl: Cluster, e: Event)
    requires Enabled(cl, e)
    ensures e.EditDeployment? ==> Apply(cl, e).models == cl.models
  {
    hide ReconcilePass;
  }

  /** At some point of the run the Deployment of `key` served this version, in a pass of the controller. */
  ghost predicate WasServed(states: seq<Cluster>, events: seq<Event>, n: nat, key: Key, model: string, version: string)
    requires |states| == |events| + 1 && n <= |events|
  {
    exists i :: 0 <= i < n && ServedAt(states, events, i, key, model, version)
  }

  ghost predicate ServedAt(states: seq<Cluster>, events: seq<Event>, i: nat, key: Key, model: string, version: string)
    requires |states| == |events| + 1 && i < |events|
  {
    && events[i].Reconcile? && events[i].key == key
    && key in states[i + 1].deployments && Serves(states[i + 1].deployments[key], model, version)
  }

  /** Over every run: an active version shown for a model was fully rolled out when the controller credited it. */
  lemma {:induction false} ActiveWasServed(states: seq<Cluster>, events: seq<Event>, n: nat, key: Key)
    requires IsRun(states, events) && states[0] == Nothing && n < |states| && key in states[n].models
    ensures var status := states[n].models[key].status;
      || (status.activeModel == "" && status.activeVersion == "")
      || WasServed(states, events, n, key, status.activeModel, status.activeVersion)
  {
    hide Apply, Enabled, Serves, Inv;
    if n > 0 {
      var cl, e, cl' := states[n - 1], events[n - 1], states[n];
      assert Next(cl, e, cl');
      RunInv(states, events, n - 1);
      ActiveStep(cl, e, cl', key);
      var status := cl'.models[key].status;
      if && key in cl.models && status.activeModel == cl.models[key].status.activeModel
         && status.activeVersion == cl.models[key].status.activeVersion
      {
        ActiveWasServed(states, events, n - 1, key);
      } else if status.activeModel != "" || status.activeVersion != "" {
        assert ServedAt(states, events, n - 1, key, status.activeModel, status.activeVersion);
      }
    }
  }

  // ---------------------------------------------------------------- success over runs

  /**
    Over every run: a pass is possible at any time, and if it succeeds the cluster then
    holds the workload asked for and a status that tells the truth about it.
  */
  lemma SuccessDelivers(states: seq<Cluster>, events: seq<Event>, n: nat)
    requires IsRun(states, events) && n < |events| && events[n].Reconcile?
    ensures forall cl, x, key :: Enabled(cl, Reconcile(key, x)) <==> OrderFits(cl, key, x.order)
    ensures var key, cl, cl' := events[n].key, states[n], states[n + 1];
      && OrderFits(cl, key, events[n].x.order)
      && (ReconcilePass(cl, key, events[n].x).outcome == Reconciled ==>
            && key in cl.models && key in cl'.models && key in cl'.deployments && key in cl'.services
            && TellsTheTruth(cl'.models[key].status, key, cl'.deployments[key], cl.models[key])
            && RunsWhatWasAsked(cl'.deployments[key], cl'.services[key], key, cl.models[key]))
  {
    hide ReconcilePass, OrderFits, TellsTheTruth, RunsWhatWasAsked;
    var cl, e := states[n], events[n];
    assert Next(cl, e, states[n + 1]);
    if ReconcilePass(cl, e.key, e.x).outcome == Reconciled {
      StatusTellsTheTruth(cl, e.key, e.x);
      WorkloadAsAsked(cl, e.key, e.x);
    }
  }

  // ---------------------------------------------------------------- foreign objects over runs

  /** Over every run: a step of the controller leaves a foreign child exactly as it was. */
  lemma ForeignSafe(states: seq<Cluster>, events: seq<Event>, n: nat, k: Key)
    requires IsRun(states, events) && n < |events| && events[n].Reconcile?
    ensures ForeignDeployment(states[n], k) ==>
              k in states[n + 1].deployments && states[n + 1].deployments[k] == states[n].deployments[k]
    ensures ForeignService(states[n], k) ==>
              k in states[n + 1].services && states[n + 1].services[k] == states[n].services[k]
    ensures k !in states[n].models ==> Same(states[n], states[n + 1], k)
  {
    hide ReconcilePass, OrderFits, NotMine;
    var cl, e := states[n], events[n];
    assert Next(cl, e, states[n + 1]);
    if k == e.key {
      ForeignUntouched(cl, k, e.x);
      PassChildren(cl, k, e.x);
    } else {
      PassFrame(cl, e.key, e.x, k);
    }
  }

  /** Both children of `k` are the same in two clusters. */
  ghost predicate Same(cl: Cluster, cl': Cluster, k: Key) {
    && (k in cl'.deployments <==> k in cl.deployments) && (k in cl'.services <==> k in cl.services)
    && (k in cl.deployments ==> cl'.deployments[k] == cl.deployments[k])
    && (k in cl.services ==> cl'.services[k] == cl.services[k])
  }
}
