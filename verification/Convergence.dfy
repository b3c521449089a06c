/**
  What one reconcile pass guarantees, for every cluster it may find and every way
  the server may answer: coherent status, repaired drift, a fixpoint, and hands
  off other controllers' objects.
*/
module Convergence {
  import opened Redis
  import opened ModelSpecs
  import opened Conditions
  import opened Ownership
  import opened Reconciler

  // ---------------------------------------------------------------- reports

  lemma ReportsConsistent(specError: SpecError, reason: string, error: ChildError, d: Deployment, replicas: int)
    ensures InvalidReport(specError).Consistent() && InvalidReport(specError).degraded.status == Yes
    ensures ErrorReport(reason, error).Consistent() && ErrorReport(reason, error).degraded.status == Yes
    ensures ObservedReport(d, replicas).Consistent()
  {
    hide RolledOut, TerminalFailure;
  }

  /** One condition per type, all at this generation, with progress reported exactly while nothing else is. */
  ghost predicate Coherent(cs: seq<Condition>, generation: int) {
    var a, p, d := Find(cs, Available), Find(cs, Progressing), Find(cs, Degraded);
    && a.Some? && p.Some? && d.Some?
    && a.value.observedGeneration == generation && p.value.observedGeneration == generation
    && d.value.observedGeneration == generation
    && (p.value.cell.status == Yes <==> a.value.cell.status == No && d.value.cell.status == No)
  }

  /** What a pass may make of a model's status. */
  ghost predicate Updates(md: ModelDeployment, status: ModelStatus, report: Report) {
    && status.observedGeneration == md.generation
    && status.desiredReplicas == DesiredReplicas(md.spec)
    && report.Consistent()
    && Reflects(status.conditions, md.generation, report)
    && (Keyed(md.status.conditions) ==> Keyed(status.conditions))
    && (forall name :: Find(status.conditions, Foreign(name)) == Find(md.status.conditions, Foreign(name)))
  }

  lemma ReportingUpdates(md: ModelDeployment, report: Report, now: int)
    requires report.Consistent()
    ensures Updates(md, Reporting(md, report, now), report)
  {
    hide Reported, Keyed, Find, Says;
    ReportedReflects(md.status.conditions, md.generation, report, now);
  }

  lemma ObservedUpdates(key: Key, md: ModelDeployment, d: Deployment, now: int)
    ensures Updates(md, ObservedStatus(key, md, d, now), ObservedReport(d, DesiredReplicas(md.spec)))
  {
    hide Updates, Reported, ObservedReport;
    ReportsConsistent(EmptyModel, "", ServerError, d, DesiredReplicas(md.spec));
    ReportingUpdates(md, ObservedReport(d, DesiredReplicas(md.spec)), now);
    var report := ObservedReport(d, DesiredReplicas(md.spec));
    UpdatesFrame(md, Reporting(md, report, now), ObservedStatus(key, md, d, now), report);
  }

  lemma UpdatesFrame(md: ModelDeployment, status: ModelStatus, status': ModelStatus, report: Report)
    requires Updates(md, status, report)
    requires status'.conditions == status.conditions && status'.observedGeneration == status.observedGeneration
    requires status'.desiredReplicas == status.desiredReplicas
    ensures Updates(md, status', report)
  {
  }

  lemma UpdatesCoherent(md: ModelDeployment, status: ModelStatus, report: Report)
    requires Updates(md, status, report)
    ensures Coherent(status.conditions, md.generation)
  {
    hide Find, Keyed;
  }

  // ---------------------------------------------------------------- which path a pass takes

  /** The status a pass wants to write, if it gets that far, and the report behind it. */
  datatype Verdict = Silent | Wants(status: ModelStatus, report: Report)

  ghost function VerdictOf(cl: Cluster, key: Key, x: Inputs): Verdict
    requires OrderFits(cl, key, x.order)
  {
    if x.faults.getModel || key !in cl.models || cl.models[key].deleting then Silent
    else
      var md := cl.models[key];
      var error := Validate(md.spec, x.order);
      if error.Some? then Wants(Reporting(md, InvalidReport(error.value), x.now), InvalidReport(error.value))
      else
        var d := EnsureDeployment(cl, key, md, x.faults);
        if d.error.Some? then
          Wants(Reporting(md, ErrorReport("DeploymentReconcileFailed", d.error.value), x.now),
              ErrorReport("DeploymentReconcileFailed", d.error.value))
        else
          var s := EnsureService(d.cluster, key, md, x.faults, x.granted);
          if s.error.Some? then
            Wants(Reporting(md, ErrorReport("ServiceReconcileFailed", s.error.value), x.now),
                ErrorReport("ServiceReconcileFailed", s.error.value))
          else
            Wants(ObservedStatus(key, md, s.cluster.deployments[key], x.now),
                ObservedReport(s.cluster.deployments[key], DesiredReplicas(md.spec)))
  }

  /** A pass that gets as far as the children. */
  ghost predicate ReachesChildren(cl: Cluster, key: Key, x: Inputs)
    requires OrderFits(cl, key, x.order)
  {
    !x.faults.getModel && key in cl.models && !cl.models[key].deleting && Validate(cl.models[key].spec, x.order).None?
  }

  /** What a pass does to the children, step by step. */
  lemma PassChildren(cl: Cluster, key: Key, x: Inputs)
    requires OrderFits(cl, key, x.order)
    ensures var p := ReconcilePass(cl, key, x);
      if !ReachesChildren(cl, key, x) then
        p.cluster.deployments == cl.deployments && p.cluster.services == cl.services && p.outcome != Reconciled
      else
        var d := EnsureDeployment(cl, key, cl.models[key], x.faults);
        if d.error.Some? then
          && p.cluster.deployments == d.cluster.deployments && p.cluster.services == d.cluster.services
          && p.outcome == Failed
        else
          var s := EnsureService(d.cluster, key, cl.models[key], x.faults, x.granted);
          && p.cluster.deployments == s.cluster.deployments && p.cluster.services == s.cluster.services
          && (p.outcome == Reconciled ==> s.error.None?)
          && (s.error.None? && x.faults.writeStatus.Works? ==> p.outcome == Reconciled)
  {
    hide EnsureDeployment, EnsureService, Validate, Reporting, ObservedStatus, InvalidReport, ErrorReport, OrderOf;
  }

  /** A pass touches one model, and of it only the status, to which it writes what it wants or nothing. */
  lemma PassModels(cl: Cluster, key: Key, x: Inputs)
    requires OrderFits(cl, key, x.order)
    ensures var cl', v := ReconcilePass(cl, key, x).cluster, VerdictOf(cl, key, x);
      && (v.Silent? ==> cl' == cl)
      && (v.Wants? ==>
            && key in cl.models
            && (cl'.models == cl.models || cl'.models == cl.models[key := cl.models[key].(status := v.status)])
            && (x.faults.writeStatus.TakesEffect() ==>
                  key in cl'.models && cl'.models[key] == cl.models[key].(status := v.status)))
  {
    hide EnsureDeployment, EnsureService, Validate, Reporting, ObservedStatus, ObservedReport, InvalidReport;
    hide ErrorReport, OrderFits;
  }

  /** Every wanted status is a coherent update. */
  lemma VerdictUpdates(cl: Cluster, key: Key, x: Inputs)
    requires OrderFits(cl, key, x.order)
    ensures VerdictOf(cl, key, x).Wants? ==>
      && key in cl.models
      && Updates(cl.models[key], VerdictOf(cl, key, x).status, VerdictOf(cl, key, x).report)
  {
    hide EnsureDeployment, EnsureService, Validate, Reporting, ObservedStatus, ObservedReport, InvalidReport;
    hide ErrorReport, OrderOf, Updates;
    var v := VerdictOf(cl, key, x);
    if v.Wants? {
      var md := cl.models[key];
      var error := Validate(md.spec, x.order);
      if error.Some? {
        ReportsConsistent(error.value, "", ServerError, EmptyDeployment, 0);
        ReportingUpdates(md, v.report, x.now);
      } else {
        var d := EnsureDeployment(cl, key, md, x.faults);
        if d.error.Some? {
          ReportsConsistent(EmptyModel, "DeploymentReconcileFailed", d.error.value, EmptyDeployment, 0);
          ReportingUpdates(md, v.report, x.now);
        } else {
          var s := EnsureService(d.cluster, key, md, x.faults, x.granted);
          if s.error.Some? {
            ReportsConsistent(EmptyModel, "ServiceReconcileFailed", s.error.value, EmptyDeployment, 0);
            ReportingUpdates(md, v.report, x.now);
          } else {
            ObservedUpdates(key, md, s.cluster.deployments[key], x.now);
          }
        }
      }
    }
  }

  /** Condition invariant: whatever path wrote it, a written status is coherent and leaves other types alone. */
  lemma WrittenStatusCoherent(cl: Cluster, key: Key, x: Inputs)
    requires OrderFits(cl, key, x.order)
    ensures var cl' := ReconcilePass(cl, key, x).cluster;
      && cl'.models.Keys == cl.models.Keys
      && forall k :: k in cl.models && cl'.models[k] != cl.models[k] ==>
           var md, md' := cl.models[k], cl'.models[k];
           && k == key && md' == md.(status := md'.status)
           && md'.status.observedGeneration == md.generation
           && Coherent(md'.status.conditions, md.generation)
           && (Keyed(md.status.conditions) ==> Keyed(md'.status.conditions))
           && forall name :: Find(md'.status.conditions, Foreign(name)) == Find(md.status.conditions, Foreign(name))
  {
    hide VerdictOf, ReconcilePass, OrderFits, Find, Keyed, Coherent, Reflects;
    PassModels(cl, key, x);
    VerdictUpdates(cl, key, x);
    var v := VerdictOf(cl, key, x);
    if v.Wants? {
      UpdatesCoherent(cl.models[key], v.status, v.report);
    }
  }

  // ---------------------------------------------------------------- how a pass ends

  /**
    How a pass ends.  It fails if the model cannot be read; it ignores a model that is
    gone or going; it rejects an invalid spec; it fails if a child cannot be reconciled;
    and instead of rejecting or succeeding it fails if a status that differs cannot be
    written.
  */
  lemma OutcomeExactly(cl: Cluster, key: Key, x: Inputs)
    requires OrderFits(cl, key, x.order)
    ensures var p := ReconcilePass(cl, key, x);
      if x.faults.getModel then p == Pass(cl, Failed)
      else if key !in cl.models || cl.models[key].deleting then p == Pass(cl, Ignored)
      else
        var v := VerdictOf(cl, key, x);
        var stuck := v.Wants? && v.status != cl.models[key].status && !x.faults.writeStatus.Works?;
        if !SpecOk(cl.models[key].spec) then p.outcome == if stuck then Failed else Rejected
        else
          var d := EnsureDeployment(cl, key, cl.models[key], x.faults);
          if d.error.Some? || EnsureService(d.cluster, key, cl.models[key], x.faults, x.granted).error.Some? then
            p.outcome == Failed
          else p.outcome == if stuck then Failed else Reconciled
  {
    hide EnsureDeployment, EnsureService, Validate, Reporting, ObservedStatus, ObservedReport, InvalidReport;
    hide ErrorReport, OrderOf, SpecOk;
    if key in cl.models { ValidateExactly(cl.models[key].spec, x.order); }
  }

  /** A status that reports a problem: everything else in it stays as it was. */
  ghost predicate ReportsProblem(status: ModelStatus, md: ModelDeployment, reason: string,
                                 available: string, progressing: string, why: Message) {
    && status == md.status.(observedGeneration := md.generation, desiredReplicas := AskedReplicas(md.spec),
                            conditions := status.conditions)
    && SaysOf(status, md.generation, Cell(No, reason, Text(available)), Cell(No, reason, Text(progressing)),
              Cell(Yes, reason, why))
  }

  lemma ProblemReported(md: ModelDeployment, now: int, specError: SpecError, reason: string, error: ChildError)
    ensures ReportsProblem(Reporting(md, InvalidReport(specError), now), md, "InvalidSpec",
              "Desired state is invalid.", "Reconciliation is paused until the desired state is corrected.",
              SpecProblem(specError))
    ensures ReportsProblem(Reporting(md, ErrorReport(reason, error), now), md, reason,
              "The desired workload could not be reconciled.", "controller-runtime will retry the transient failure.",
              ChildProblem(error))
  {
    hide Reported, Says, Find, Keyed;
    ReportsConsistent(specError, reason, error, EmptyDeployment, 0);
    ReportingUpdates(md, InvalidReport(specError), now);
    ReportingUpdates(md, ErrorReport(reason, error), now);
  }

  /** What a pass that does not succeed records, if its status write takes effect: the problem, and of which child. */
  lemma ProblemIsRecorded(cl: Cluster, key: Key, x: Inputs)
    requires OrderFits(cl, key, x.order) && !x.faults.getModel && key in cl.models && !cl.models[key].deleting
    requires x.faults.writeStatus.TakesEffect()
    ensures var md, cl' := cl.models[key], ReconcilePass(cl, key, x).cluster;
      && key in cl'.models
      && (Validate(md.spec, x.order).Some? ==>
            && cl'.deployments == cl.deployments && cl'.services == cl.services
            && ReportsProblem(cl'.models[key].status, md, "InvalidSpec", "Desired state is invalid.",
                 "Reconciliation is paused until the desired state is corrected.",
                 SpecProblem(Validate(md.spec, x.order).value)))
      && (Validate(md.spec, x.order).None? ==>
            var d := EnsureDeployment(cl, key, md, x.faults);
            var s := EnsureService(d.cluster, key, md, x.faults, x.granted);
            && (d.error.Some? ==>
                  ReportsProblem(cl'.models[key].status, md, "DeploymentReconcileFailed",
                    "The desired workload could not be reconciled.",
                    "controller-runtime will retry the transient failure.", ChildProblem(d.error.value)))
            && (d.error.None? && s.error.Some? ==>
                  ReportsProblem(cl'.models[key].status, md, "ServiceReconcileFailed",
                    "The desired workload could not be reconciled.",
                    "controller-runtime will retry the transient failure.", ChildProblem(s.error.value))))
  {
    hide EnsureDeployment, EnsureService, Validate, Reporting, ObservedStatus, ObservedReport, InvalidReport;
    hide ErrorReport, OrderOf, ReconcilePass, ReportsProblem;
    PassModels(cl, key, x);
    PassChildren(cl, key, x);
    var md := cl.models[key];
    var invalid := Validate(md.spec, x.order);
    if invalid.Some? {
      ProblemReported(md, x.now, invalid.value, "", ServerError);
    } else {
      var d := EnsureDeployment(cl, key, md, x.faults);
      var s := EnsureService(d.cluster, key, md, x.faults, x.granted);
      if d.error.Some? {
        ProblemReported(md, x.now, EmptyModel, "DeploymentReconcileFailed", d.error.value);
      } else if s.error.Some? {
        ProblemReported(md, x.now, EmptyModel, "ServiceReconcileFailed", s.error.value);
      }
    }
  }

  // ---------------------------------------------------------------- children

  /** The Deployment is this model's and says what the model asks for. */
  predicate DeploymentSettled(d: Deployment, key: Key, md: ModelDeployment) {
    && Claim(true, d.owners, OwnerOf(key, md)) == Mine(d.owners)
    && d.labels == ChildLabels(key)
    && d.spec == RenderedSpec(key, md.spec)
  }

  predicate ServiceSettled(s: Service, key: Key, md: ModelDeployment) {
    && Claim(true, s.owners, OwnerOf(key, md)) == Mine(s.owners)
    && s.labels == ChildLabels(key) && s.selector == ChildLabels(key)
    && s.kind == ClusterIP && s.affinity == NoAffinity && s.ports == HttpPorts
  }

  /** Whatever it finds, an error-free step leaves a settled child; it changes nothing else. */
  lemma DeploymentStep(cl: Cluster, key: Key, md: ModelDeployment, faults: Faults)
    ensures var r := EnsureDeployment(cl, key, md, faults);
      && r.cluster.models == cl.models && r.cluster.services == cl.services
      && r.cluster.statusUpdates == cl.statusUpdates
      && r.cluster.deployments.Keys - {key} == cl.deployments.Keys - {key}
      && (forall k :: k in cl.deployments && k != key ==> r.cluster.deployments[k] == cl.deployments[k])
      && (r.error.None? ==> DeploymentSettled(r.cluster.deployments[key], key, md))
      // A new Deployment starts at generation 1; of a stored one the status stays, and a changed spec counts.
      && (r.cluster != cl ==>
            && key in r.cluster.deployments && DeploymentSettled(r.cluster.deployments[key], key, md)
            && (key !in cl.deployments ==>
                  && r.cluster.deployments[key].generation == 1
                  && r.cluster.deployments[key].status == DeploymentStatus(0, 0, 0, 0, 0, [])
                  && r.cluster.creates == cl.creates + 1 && r.cluster.updates == cl.updates)
            && (key in cl.deployments ==>
                  && r.cluster.deployments[key].generation
                     == cl.deployments[key].generation
                        + (if r.cluster.deployments[key].spec == cl.deployments[key].spec then 0 else 1)
                  && r.cluster.deployments[key].status == cl.deployments[key].status
                  && r.cluster.creates == cl.creates && r.cluster.updates == cl.updates + 1))
      && (faults.getDeployment || faults.writeDeployment.Refuses? ==> r.cluster == cl)
      && (faults.getDeployment ==> r.error == Some(ServerError))
      && (r.cluster != cl ==> r.error == if faults.writeDeployment.LosesReply? then Some(ServerError) else None)
      && (key in cl.deployments && NotMine(cl.deployments[key].owners, OwnerOf(key, md)) ==>
            r.error.Some? && r.cluster == cl)
      && (faults == NoFaults && r.error.Some? ==>
            key in cl.deployments && NotMine(cl.deployments[key].owners, OwnerOf(key, md)))
  {
    hide ChildLabels, RenderedSpec, Claim, NotMine;
    var found := key in cl.deployments;
    ClaimExactly(found, (if found then cl.deployments[key] else EmptyDeployment).owners, OwnerOf(key, md));
  }

  lemma ServiceStep(cl: Cluster, key: Key, md: ModelDeployment, faults: Faults, granted: string)
    ensures var r := EnsureService(cl, key, md, faults, granted);
      && r.cluster.models == cl.models && r.cluster.deployments == cl.deployments
      && r.cluster.statusUpdates == cl.statusUpdates
      && r.cluster.services.Keys - {key} == cl.services.Keys - {key}
      && (forall k :: k in cl.services && k != key ==> r.cluster.services[k] == cl.services[k])
      && (r.error.None? ==> ServiceSettled(r.cluster.services[key], key, md))
      && (r.cluster != cl ==>
            && key in r.cluster.services && ServiceSettled(r.cluster.services[key], key, md)
            && (key !in cl.services ==> r.cluster.services[key].granted == granted)
            && (if key in cl.services then r.cluster.creates == cl.creates && r.cluster.updates == cl.updates + 1
                else r.cluster.creates == cl.creates + 1 && r.cluster.updates == cl.updates))
      && (faults.getService || faults.writeService.Refuses? ==> r.cluster == cl)
      && (faults.getService ==> r.error == Some(ServerError))
      && (r.cluster != cl ==> r.error == if faults.writeService.LosesReply? then Some(ServerError) else None)
      && (key in cl.services ==>
            key in r.cluster.services && r.cluster.services[key].granted == cl.services[key].granted)
      && (key in cl.services && NotMine(cl.services[key].owners, OwnerOf(key, md)) ==> r.error.Some? && r.cluster == cl)
      && (faults == NoFaults && r.error.Some? ==>
            key in cl.services && NotMine(cl.services[key].owners, OwnerOf(key, md)))
  {
    hide ChildLabels, Claim, NotMine;
    var found := key in cl.services;
    ClaimExactly(found, (if found then cl.services[key] else EmptyService).owners, OwnerOf(key, md));
  }

  // ---------------------------------------------------------------- drift

  /**
    Drift convergence: a pass that reports success leaves both children exactly as
    the model asks, whatever they were before, and keeps what the server assigned.
  */
  lemma DriftConverges(cl: Cluster, key: Key, x: Inputs)
    requires OrderFits(cl, key, x.order)
    requires ReconcilePass(cl, key, x).outcome == Reconciled
    ensures var cl' := ReconcilePass(cl, key, x).cluster;
      && key in cl.models && key in cl'.deployments && key in cl'.services
      && DeploymentSettled(cl'.deployments[key], key, cl.models[key])
      && ServiceSettled(cl'.services[key], key, cl.models[key])
      && Controller(cl'.deployments[key].owners) == Some(OwnerOf(key, cl.models[key]))
      && Controller(cl'.services[key].owners) == Some(OwnerOf(key, cl.models[key]))
      && (key in cl.services ==> cl'.services[key].granted == cl.services[key].granted)
  {
    hide EnsureDeployment, EnsureService, ReconcilePass, OrderFits, DeploymentSettled, ServiceSettled;
    PassChildren(cl, key, x);
    var md := cl.models[key];
    DeploymentStep(cl, key, md, x.faults);
    ServiceStep(EnsureDeployment(cl, key, md, x.faults).cluster, key, md, x.faults, x.granted);
    var cl' := ReconcilePass(cl, key, x).cluster;
    SettledController(cl'.deployments[key], cl'.services[key], key, md);
  }

  lemma SettledController(d: Deployment, s: Service, key: Key, md: ModelDeployment)
    requires DeploymentSettled(d, key, md) && ServiceSettled(s, key, md)
    ensures Controller(d.owners) == Some(OwnerOf(key, md)) && Controller(s.owners) == Some(OwnerOf(key, md))
  {
    hide ChildLabels, RenderedSpec;
    ClaimExactly(true, d.owners, OwnerOf(key, md));
    ClaimExactly(true, s.owners, OwnerOf(key, md));
  }

  /** The labels of everything rendered for a model. */
  predicate Labelled(labels: Labels, key: Key) {
    labels == map["app.kubernetes.io/name" := "model-runtime",
                  "app.kubernetes.io/instance" := key.name,
                  "app.kubernetes.io/managed-by" := "kernexys-controller"]
  }

  /**
    The pods run the model version and image asked for, and the Service reaches exactly
    these pods.  A spec that names no count gets 1, no port 8080; each of the two resource
    maps is the given one, or the default where none is given.
  */
  ghost predicate RunsWhatWasAsked(d: Deployment, s: Service, key: Key, md: ModelDeployment) {
    var spec, pod := md.spec, d.spec.template;
    && d.spec.replicas == AskedReplicas(spec)
    && pod.model == spec.model && pod.version == spec.version && pod.image == spec.image
    && pod.annotations
       == map["platform.kernexys.io/model" := spec.model, "platform.kernexys.io/version" := spec.version]
    && pod.port == AskedPort(spec)
    && pod.resources.requests == (if spec.resources.requests != map[] then spec.resources.requests
                                  else map["cpu" := 0.1, "memory" := 134217728.0])
    && pod.resources.limits == (if spec.resources.limits != map[] then spec.resources.limits
                                else map["cpu" := 1.0, "memory" := 536870912.0])
    && pod.rest == Prescribed && d.spec.rest == Prescribed
    && Labelled(d.labels, key) && Labelled(pod.labels, key) && Labelled(d.spec.selector, key)
    && Labelled(s.labels, key) && Labelled(s.selector, key)
    && s.kind == ClusterIP && s.affinity == NoAffinity && s.ports == [ServicePort("http", "TCP", 80, "http")]
    && Controller(d.owners) == Some(OwnerRef("platform.kernexys.io", "ModelDeployment", key.name, md.uid, true))
    && Controller(s.owners) == Some(OwnerRef("platform.kernexys.io", "ModelDeployment", key.name, md.uid, true))
  }

  /** After success the workload is the one asked for, accepted specs only, and within the bounds of validation. */
  lemma WorkloadAsAsked(cl: Cluster, key: Key, x: Inputs)
    requires OrderFits(cl, key, x.order)
    requires ReconcilePass(cl, key, x).outcome == Reconciled
    ensures var cl' := ReconcilePass(cl, key, x).cluster;
      && key in cl.models && SpecOk(cl.models[key].spec)
      && key in cl'.deployments && key in cl'.services
      && RunsWhatWasAsked(cl'.deployments[key], cl'.services[key], key, cl.models[key])
      && 1 <= cl'.deployments[key].spec.replicas <= 100 && 1 <= cl'.deployments[key].spec.template.port <= 65535
  {
    hide ReconcilePass, OrderOf, Claim, SpecOk, Controller;
    DriftConverges(cl, key, x);
    BoundsOf(cl.models[key].spec);
    PassChildren(cl, key, x);
    ValidateExactly(cl.models[key].spec, x.order);
  }

  lemma BoundsOf(spec: ModelSpec)
    ensures SpecOk(spec) ==> 1 <= DesiredReplicas(spec) <= 100 && 1 <= DesiredPort(spec) <= 65535
  {
  }

  /** Models of different names get different labels: no Service reaches another model's pods. */
  lemma LabelsSeparate(a: Key, b: Key)
    ensures ChildLabels(a) == ChildLabels(b) <==> a.name == b.name
  {
    assert "app.kubernetes.io/instance"[18] != "app.kubernetes.io/managed-by"[18];
    assert ChildLabels(a)["app.kubernetes.io/instance"] == a.name;
    assert ChildLabels(b)["app.kubernetes.io/instance"] == b.name;
  }

  /** What the status says in its three conditions. */
  ghost predicate SaysOf(status: ModelStatus, generation: int, available: Cell, progressing: Cell, degraded: Cell) {
    && Says(status.conditions, Available, available, generation)
    && Says(status.conditions, Progressing, progressing, generation)
    && Says(status.conditions, Degraded, degraded, generation)
  }

  /**
    What a recorded status says about the Deployment as it now stands.  It is up if all
    of the pods asked for, and no others, are updated, available and ready, and that was
    observed of the current generation; it has failed if, of the current generation too,
    the first condition on its progress that is negative says so.
  */
  ghost predicate TellsTheTruth(status: ModelStatus, key: Key, d: Deployment, md: ModelDeployment) {
    var n, current := AskedReplicas(md.spec), d.status.observedGeneration == d.generation;
    var up := && current && d.status.replicas == n && d.status.updated == n
              && d.status.available == n && d.status.ready == n;
    var waiting, succeeded := Waiting(d.status.ready, n),
        Cell(No, "ReconcileSucceeded", Text("The desired child resources were reconciled."));
    var available :=
      if up then Cell(Yes, "MinimumReplicasAvailable", Text("All desired runtime replicas are available."))
      else Cell(No, "ReplicasNotReady", waiting);
    && status.observedGeneration == md.generation
    && status.desiredReplicas == n && status.readyReplicas == d.status.ready
    && status.endpoint == "http://" + key.name + "." + key.namespace + ".svc.cluster.local"
    && status.activeModel == (if up then md.spec.model else md.status.activeModel)
    && status.activeVersion == (if up then md.spec.version else md.status.activeVersion)
    && (forall i :: current && FailsFirstAt(d.status.conditions, i) ==>
          var why := d.status.conditions[i];
          SaysOf(status, md.generation, available,
                 Cell(No, why.reason, Text(why.message)), Cell(Yes, why.reason, Text(why.message))))
    && ((!current || forall c :: c in d.status.conditions ==> !(c.progressing && c.status == No)) ==>
          SaysOf(status, md.generation, available,
                 if up then Cell(No, "RolloutComplete", Text("The runtime rollout is complete."))
                 else Cell(Yes, "Reconciling", waiting),
                 succeeded))
  }

  /** The condition at i is the first that says the rollout makes no progress. */
  ghost predicate FailsFirstAt(cs: seq<DeploymentCondition>, i: int) {
    && 0 <= i < |cs| && cs[i].progressing && cs[i].status == No
    && forall j :: 0 <= j < i ==> !(cs[j].progressing && cs[j].status == No)
  }

  lemma {:induction false} FailureIsFound(cs: seq<DeploymentCondition>)
    ensures FirstFailure(cs).Some? <==> exists c :: c in cs && c.progressing && c.status == No
    ensures forall i :: FailsFirstAt(cs, i) ==> FirstFailure(cs) == Some(cs[i])
  {
    if cs != [] {
      FailureIsFound(cs[1..]);
      assert cs == [cs[0]] + cs[1..];
      forall i | FailsFirstAt(cs, i) ensures FirstFailure(cs) == Some(cs[i]) {
        if i > 0 {
          assert !(cs[0].progressing && cs[0].status == No);
          assert forall j :: 0 <= j < i - 1 ==> cs[1..][j] == cs[j + 1];
          assert FailsFirstAt(cs[1..], i - 1);
        }
      }
    }
  }

  /** After success the stored status tells the truth about the stored Deployment. */
  lemma StatusTellsTheTruth(cl: Cluster, key: Key, x: Inputs)
    requires OrderFits(cl, key, x.order)
    requires ReconcilePass(cl, key, x).outcome == Reconciled
    ensures var cl' := ReconcilePass(cl, key, x).cluster;
      && key in cl.models && key in cl'.models && key in cl'.deployments
      && cl'.models[key] == cl.models[key].(status := cl'.models[key].status)
      && TellsTheTruth(cl'.models[key].status, key, cl'.deployments[key], cl.models[key])
  {
    hide EnsureDeployment, EnsureService, Validate, OrderOf, ObservedStatus, TellsTheTruth;
    var md := cl.models[key];
    var s := EnsureService(EnsureDeployment(cl, key, md, x.faults).cluster, key, md, x.faults, x.granted);
    ObservedTruth(key, md, s.cluster.deployments[key], x.now);
  }

  lemma ObservedTruth(key: Key, md: ModelDeployment, d: Deployment, now: int)
    ensures TellsTheTruth(ObservedStatus(key, md, d, now), key, d, md)
  {
    hide Reported, Find, Says, Keyed, FirstFailure;
    FailureIsFound(d.status.conditions);
    ObservedUpdates(key, md, d, now);
    ObservedFields(key, md, d, now);
  }

  lemma ObservedFields(key: Key, md: ModelDeployment, d: Deployment, now: int)
    ensures var status, up := ObservedStatus(key, md, d, now), RolledOut(d, DesiredReplicas(md.spec));
      && status.readyReplicas == d.status.ready && status.desiredReplicas == DesiredReplicas(md.spec)
      && status.endpoint == "http://" + key.name + "." + key.namespace + ".svc.cluster.local"
      && status.activeModel == (if up then md.spec.model else md.status.activeModel)
      && status.activeVersion == (if up then md.spec.version else md.status.activeVersion)
  {
    hide Reported, RolledOut, ObservedReport;
  }

  /** The result depends on the model only: two clusters that agree on it end up with the same children. */
  lemma DriftIsForgotten(cl: Cluster, cl2: Cluster, key: Key, x: Inputs, x2: Inputs)
    requires OrderFits(cl, key, x.order) && OrderFits(cl2, key, x2.order)
    requires key in cl.models && key in cl2.models
    requires cl.models[key].spec == cl2.models[key].spec
    requires ReconcilePass(cl, key, x).outcome == Reconciled && ReconcilePass(cl2, key, x2).outcome == Reconciled
    ensures var a, b := ReconcilePass(cl, key, x).cluster, ReconcilePass(cl2, key, x2).cluster;
      && key in a.deployments && key in b.deployments && key in a.services && key in b.services
      && a.deployments[key].spec == b.deployments[key].spec && a.deployments[key].labels == b.deployments[key].labels
      && a.services[key].selector == b.services[key].selector && a.services[key].ports == b.services[key].ports
      && a.services[key].kind == b.services[key].kind && a.services[key].labels == b.services[key].labels
  {
    hide ReconcilePass, RenderedSpec, ChildLabels, OrderFits;
    DriftConverges(cl, key, x);
    DriftConverges(cl2, key, x2);
  }

  // ---------------------------------------------------------------- foreign objects

  ghost predicate ForeignDeployment(cl: Cluster, key: Key) {
    key in cl.models && key in cl.deployments && NotMine(cl.deployments[key].owners, OwnerOf(key, cl.models[key]))
  }

  ghost predicate ForeignService(cl: Cluster, key: Key) {
    key in cl.models && key in cl.services && NotMine(cl.services[key].owners, OwnerOf(key, cl.models[key]))
  }

  /** A pass for one model never touches the children of another. */
  lemma PassFrame(cl: Cluster, key: Key, x: Inputs, k: Key)
    requires OrderFits(cl, key, x.order) && k != key
    ensures var cl' := ReconcilePass(cl, key, x).cluster;
      && (k in cl'.deployments <==> k in cl.deployments) && (k in cl'.services <==> k in cl.services)
      && (k in cl.deployments ==> cl'.deployments[k] == cl.deployments[k])
      && (k in cl.services ==> cl'.services[k] == cl.services[k])
  {
    hide EnsureDeployment, EnsureService, ReconcilePass, OrderFits, DeploymentSettled, ServiceSettled;
    PassChildren(cl, key, x);
    if ReachesChildren(cl, key, x) {
      var md := cl.models[key];
      var d := EnsureDeployment(cl, key, md, x.faults);
      DeploymentStep(cl, key, md, x.faults);
      ServiceStep(d.cluster, key, md, x.faults, x.granted);
      assert k in d.cluster.deployments.Keys - {key} <==> k in cl.deployments.Keys - {key};
      var s := EnsureService(d.cluster, key, md, x.faults, x.granted);
      assert k in s.cluster.services.Keys - {key} <==> k in d.cluster.services.Keys - {key};
    }
  }

  /**
    Foreign-object safety: an existing child without a controller owner, or with
    another one, is never modified; a Deployment step that fails, for this or any other
    reason, keeps the Service untouched; and with a foreign child the pass reports
    Degraded if its status write takes effect.
  */
  lemma ForeignUntouched(cl: Cluster, key: Key, x: Inputs)
    requires OrderFits(cl, key, x.order)
    ensures var p := ReconcilePass(cl, key, x);
      && (ForeignDeployment(cl, key) ==>
            p.cluster.deployments == cl.deployments && p.cluster.services == cl.services && p.outcome != Reconciled)
      && (ForeignService(cl, key) ==> p.cluster.services == cl.services && p.outcome != Reconciled)
      && (key in cl.models && EnsureDeployment(cl, key, cl.models[key], x.faults).error.Some? ==>
            p.cluster.services == cl.services && p.outcome != Reconciled)
      && ((ForeignDeployment(cl, key) || ForeignService(cl, key))
          && !x.faults.getModel && !cl.models[key].deleting && x.faults.writeStatus.TakesEffect() ==>
            && key in p.cluster.models
            && Find(p.cluster.models[key].status.conditions, Degraded).Some?
            && Find(p.cluster.models[key].status.conditions, Degraded).value.cell.status == Yes)
  {
    hide EnsureDeployment, EnsureService, ReconcilePass, OrderFits, DeploymentSettled, ServiceSettled, NotMine;
    hide VerdictOf, Find, Keyed;
    PassChildren(cl, key, x);
    if ForeignDeployment(cl, key) || ForeignService(cl, key) {
      if ReachesChildren(cl, key, x) {
        var md := cl.models[key];
        DeploymentStep(cl, key, md, x.faults);
        ServiceStep(EnsureDeployment(cl, key, md, x.faults).cluster, key, md, x.faults, x.granted);
      }
      if !x.faults.getModel && !cl.models[key].deleting {
        PassModels(cl, key, x);
        VerdictUpdates(cl, key, x);
        ForeignDegrades(cl, key, x);
      }
    }
  }

  /** Why a child with these owners is not this model's. */
  ghost predicate ForeignError(owners: seq<OwnerRef>, owner: OwnerRef, error: Option<ChildError>) {
    && (Controller(owners).None? ==> error == Some(NoControllerOwner))
    && (Controller(owners).Some? && !SameOwner(Controller(owners).value, owner) ==>
          error == Some(OwnedByOther(Controller(owners).value.name)))
  }

  /** The error of a child step names what is wrong: no controller, another one, or else the server. */
  lemma ChildErrors(cl: Cluster, key: Key, md: ModelDeployment, faults: Faults, granted: string)
    ensures var d, s := EnsureDeployment(cl, key, md, faults).error, EnsureService(cl, key, md, faults, granted).error;
      && (!faults.getDeployment && key in cl.deployments ==>
            ForeignError(cl.deployments[key].owners, OwnerOf(key, md), d))
      && (!faults.getService && key in cl.services ==> ForeignError(cl.services[key].owners, OwnerOf(key, md), s))
      && (!(key in cl.deployments && NotMine(cl.deployments[key].owners, OwnerOf(key, md))) ==>
            d in {None, Some(ServerError)})
      && (!(key in cl.services && NotMine(cl.services[key].owners, OwnerOf(key, md))) ==>
            s in {None, Some(ServerError)})
  {
    hide ChildLabels, RenderedSpec, Upsert, MutatedDeployment, MutatedService, StoredDeployment, StoredService;
  }

  lemma ForeignDegrades(cl: Cluster, key: Key, x: Inputs)
    requires OrderFits(cl, key, x.order) && !x.faults.getModel
    requires (ForeignDeployment(cl, key) || ForeignService(cl, key)) && !cl.models[key].deleting
    ensures VerdictOf(cl, key, x).Wants? && VerdictOf(cl, key, x).report.degraded.status == Yes
  {
    hide EnsureDeployment, EnsureService, Validate, Reporting, ObservedStatus, ObservedReport, OrderOf;
    hide DeploymentSettled, ServiceSettled, NotMine;
    var md := cl.models[key];
    DeploymentStep(cl, key, md, x.faults);
    ServiceStep(EnsureDeployment(cl, key, md, x.faults).cluster, key, md, x.faults, x.granted);
  }

  /** If every write is accepted, a valid model is reconciled exactly if neither child is foreign. */
  lemma ReconciledIfAccepted(cl: Cluster, key: Key, x: Inputs)
    requires OrderFits(cl, key, x.order) && x.faults == NoFaults
    requires key in cl.models && !cl.models[key].deleting && SpecOk(cl.models[key].spec)
    ensures ReconcilePass(cl, key, x).outcome == Reconciled <==> !ForeignDeployment(cl, key) && !ForeignService(cl, key)
  {
    hide EnsureDeployment, EnsureService, ReconcilePass, DeploymentSettled, ServiceSettled, NotMine, SpecOk, OrderOf;
    var md := cl.models[key];
    ValidateExactly(md.spec, x.order);
    PassChildren(cl, key, x);
    DeploymentStep(cl, key, md, x.faults);
    ServiceStep(EnsureDeployment(cl, key, md, x.faults).cluster, key, md, x.faults, x.granted);
  }

  predicate OtherSelector(cl: Cluster, key: Key) {
    key in cl.deployments && cl.deployments[key].spec.selector != ChildLabels(key)
  }

  /** A server that answers every call, and refuses only to change the selector of a Deployment. */
  function SelectorRule(cl: Cluster, key: Key): Faults {
    NoFaults.(writeDeployment := if OtherSelector(cl, key) then Refuses else Works)
  }

  /** With such a server it is reconciled exactly if, besides, the Deployment has the selector it is to have. */
  lemma ReconciledExactly(cl: Cluster, key: Key, x: Inputs)
    requires OrderFits(cl, key, x.order) && x.faults == SelectorRule(cl, key)
    requires key in cl.models && !cl.models[key].deleting && SpecOk(cl.models[key].spec)
    ensures ReconcilePass(cl, key, x).outcome == Reconciled <==>
              !ForeignDeployment(cl, key) && !ForeignService(cl, key) && !OtherSelector(cl, key)
  {
    hide EnsureDeployment, EnsureService, ReconcilePass, DeploymentSettled, ServiceSettled, NotMine, SpecOk, OrderOf;
    hide ChildLabels;
    if OtherSelector(cl, key) {
      ValidateExactly(cl.models[key].spec, x.order);
      PassChildren(cl, key, x);
      SelectorRefused(cl, key, cl.models[key], x.faults);
    } else {
      ReconciledIfAccepted(cl, key, x);
    }
  }

  lemma SelectorRefused(cl: Cluster, key: Key, md: ModelDeployment, faults: Faults)
    requires OtherSelector(cl, key) && faults.writeDeployment.Refuses?
    ensures EnsureDeployment(cl, key, md, faults).error.Some?
  {
    hide ChildLabels, Claim;
  }

  // ---------------------------------------------------------------- fixpoint

  /** A settled child needs no write. */
  lemma SettledNeedsNothing(cl: Cluster, key: Key, md: ModelDeployment, granted: string)
    ensures key in cl.deployments && DeploymentSettled(cl.deployments[key], key, md) ==>
              EnsureDeployment(cl, key, md, NoFaults) == ChildPass(cl, None)
    ensures key in cl.services && ServiceSettled(cl.services[key], key, md) ==>
              EnsureService(cl, key, md, NoFaults, granted) == ChildPass(cl, None)
  {
    hide ChildLabels, RenderedSpec, Claim;
  }

  /** Both child steps, repeated on a cluster with the same children and a model of the same spec. */
  lemma ChildrenAgain(cl: Cluster, cl1: Cluster, key: Key, md: ModelDeployment, md1: ModelDeployment,
                      granted: string, granted1: string)
    requires md1 == md.(status := md1.status)
    requires var d := EnsureDeployment(cl, key, md, NoFaults);
      if d.error.Some? then cl1.deployments == d.cluster.deployments && cl1.services == d.cluster.services
      else var s := EnsureService(d.cluster, key, md, NoFaults, granted);
           cl1.deployments == s.cluster.deployments && cl1.services == s.cluster.services
    ensures var d, d1 := EnsureDeployment(cl, key, md, NoFaults), EnsureDeployment(cl1, key, md1, NoFaults);
      && d1 == ChildPass(cl1, d.error)
      && (d.error.None? ==>
            EnsureService(cl1, key, md1, NoFaults, granted1)
              == ChildPass(cl1, EnsureService(d.cluster, key, md, NoFaults, granted).error))
  {
    hide EnsureDeployment, EnsureService, DeploymentSettled, ServiceSettled, NotMine;
    var d := EnsureDeployment(cl, key, md, NoFaults);
    DeploymentStep(cl, key, md, NoFaults);
    if d.error.Some? {
      RefusedAgain(cl, cl1, key, md, md1, granted, granted1);
    } else {
      var s := EnsureService(d.cluster, key, md, NoFaults, granted);
      ServiceStep(d.cluster, key, md, NoFaults, granted);
      SettledIgnoresStatus(s.cluster.deployments[key], key, md, md1);
      SettledNeedsNothing(cl1, key, md1, granted1);
      if s.error.Some? {
        RefusedAgain(d.cluster, cl1, key, md, md1, granted, granted1);
      } else {
        ServiceIgnoresStatus(s.cluster.services[key], key, md, md1);
      }
    }
  }

  lemma RefusedAgain(cl: Cluster, cl1: Cluster, key: Key, md: ModelDeployment, md1: ModelDeployment, granted: string,
                     granted1: string)
    requires md1 == md.(status := md1.status)
    ensures key in cl.deployments && cl1.deployments == cl.deployments
            && NotMine(cl.deployments[key].owners, OwnerOf(key, md)) ==>
              EnsureDeployment(cl1, key, md1, NoFaults) == ChildPass(cl1, EnsureDeployment(cl, key, md, NoFaults).error)
    ensures key in cl.services && cl1.services == cl.services && NotMine(cl.services[key].owners, OwnerOf(key, md)) ==>
              EnsureService(cl1, key, md1, NoFaults, granted1)
                == ChildPass(cl1, EnsureService(cl, key, md, NoFaults, granted).error)
  {
    hide ChildLabels, RenderedSpec, Controller, Upsert;
  }

  lemma SettledIgnoresStatus(d: Deployment, key: Key, md: ModelDeployment, md1: ModelDeployment)
    requires DeploymentSettled(d, key, md) && md1 == md.(status := md1.status)
    ensures DeploymentSettled(d, key, md1)
  {
  }

  lemma ServiceIgnoresStatus(s: Service, key: Key, md: ModelDeployment, md1: ModelDeployment)
    requires ServiceSettled(s, key, md) && md1 == md.(status := md1.status)
    ensures ServiceSettled(s, key, md1)
  {
  }

  /** Writing a status again, from the status it produced, is no change. */
  lemma ReportingAgain(md: ModelDeployment, report: Report, now: int, now1: int)
    ensures var md1 := md.(status := Reporting(md, report, now));
      Reporting(md1, report, now1) == md1.status
  {
    hide Reported;
    ReportedReflects(md.status.conditions, md.generation, report, now);
    ReportAgain(Reported(md.status.conditions, md.generation, report, now), md.generation, report, now1);
  }

  lemma ObservedAgain(key: Key, md: ModelDeployment, d: Deployment, now: int, now1: int)
    ensures var md1 := md.(status := ObservedStatus(key, md, d, now));
      ObservedStatus(key, md1, d, now1) == md1.status
  {
    hide Reported, ObservedReport, RolledOut;
    var report := ObservedReport(d, DesiredReplicas(md.spec));
    ReportedReflects(md.status.conditions, md.generation, report, now);
    ReportAgain(Reported(md.status.conditions, md.generation, report, now), md.generation, report, now1);
  }

  /** The second validation reports what the first did. */
  ghost predicate SameReport(spec: ModelSpec, order: Order, order1: Order)
    requires OrderOf(order, spec.resources) && OrderOf(order1, spec.resources)
  {
    Validate(spec, order) == Validate(spec, order1)
  }

  /**
    Reconcile fixpoint: after a pass in which the server answered, a second pass with
    no change in between writes nothing at all: no create, no update, no status write.
  */
  lemma Fixpoint(cl: Cluster, key: Key, x: Inputs, x1: Inputs)
    requires OrderFits(cl, key, x.order) && OrderFits(cl, key, x1.order) && x.faults == NoFaults
    requires x1.faults == NoFaults
    requires key in cl.models ==> SameReport(cl.models[key].spec, x.order, x1.order)
    ensures var p := ReconcilePass(cl, key, x);
      OrderFits(p.cluster, key, x1.order) && ReconcilePass(p.cluster, key, x1) == p
  {
    hide EnsureDeployment, EnsureService, Validate, Reporting, ObservedStatus, InvalidReport, ErrorReport, OrderOf;
    if key in cl.models && !cl.models[key].deleting {
      var md := cl.models[key];
      var p := ReconcilePass(cl, key, x);
      PassModels(cl, key, x);
      var md1 := p.cluster.models[key];
      var error := Validate(md.spec, x.order);
      if error.Some? {
        ReportingAgain(md, InvalidReport(error.value), x.now, x1.now);
      } else {
        var d := EnsureDeployment(cl, key, md, NoFaults);
        ChildrenAgain(cl, p.cluster, key, md, md1, x.granted, x1.granted);
        if d.error.Some? {
          ReportingAgain(md, ErrorReport("DeploymentReconcileFailed", d.error.value), x.now, x1.now);
        } else {
          var s := EnsureService(d.cluster, key, md, NoFaults, x.granted);
          if s.error.Some? {
            ReportingAgain(md, ErrorReport("ServiceReconcileFailed", s.error.value), x.now, x1.now);
          } else {
            ObservedAgain(key, md, s.cluster.deployments[key], x.now, x1.now);
          }
        }
      }
    }
  }

  // ---------------------------------------------------------------- the fixpoint of an invalid spec

  ghost predicate Answered(cl: Cluster, key: Key, x: Inputs) { x.faults == NoFaults && OrderFits(cl, key, x.order) }

  /** A second pass, with its own map order, leaves the cluster as the first one left it. */
  ghost predicate QuietAfter(cl: Cluster, key: Key, x: Inputs, x1: Inputs)
    requires Answered(cl, key, x) && Answered(cl, key, x1)
  {
    var p := ReconcilePass(cl, key, x);
    OrderFits(p.cluster, key, x1.order) && ReconcilePass(p.cluster, key, x1).cluster == p.cluster
  }

  /** If the two passes met different errors, the second one rewrites the status. */
  lemma OtherErrorRewrites(cl: Cluster, key: Key, x: Inputs, x1: Inputs)
    requires Answered(cl, key, x) && Answered(cl, key, x1) && key in cl.models && !cl.models[key].deleting
    requires Validate(cl.models[key].spec, x.order).Some? && Validate(cl.models[key].spec, x1.order).Some?
    requires Validate(cl.models[key].spec, x.order) != Validate(cl.models[key].spec, x1.order)
    ensures !QuietAfter(cl, key, x, x1)
  {
    hide Validate, Reporting, OrderOf, Find;
    var md, p := cl.models[key], ReconcilePass(cl, key, x);
    var e, e1 := Validate(md.spec, x.order).value, Validate(md.spec, x1.order).value;
    ReportsConsistent(e, "", ServerError, EmptyDeployment, 0);
    ReportsConsistent(e1, "", ServerError, EmptyDeployment, 0);
    ReportingUpdates(md, InvalidReport(e), x.now);
    var md1 := p.cluster.models[key];
    assert md1 == md.(status := Reporting(md, InvalidReport(e), x.now));
    ReportingUpdates(md1, InvalidReport(e1), x1.now);
    assert Reporting(md1, InvalidReport(e1), x1.now) != md1.status;
  }

  lemma InputsWith(order: Order) returns (x: Inputs)
    ensures x.order == order && x.faults == NoFaults
  {
    x := Inputs(0, order, "", NoFaults);
  }

  /** An invalid spec reaches a fixpoint under every pair of map orders exactly if only one error is reportable. */
  lemma InvalidFixpointExactly(cl: Cluster, key: Key)
    requires key in cl.models && !cl.models[key].deleting && !SpecOk(cl.models[key].spec)
    ensures (forall x, x1 :: Answered(cl, key, x) && Answered(cl, key, x1) ==> QuietAfter(cl, key, x, x1))
       <==> (forall e, e' :: Reportable(cl.models[key].spec, e) && Reportable(cl.models[key].spec, e') ==> e == e')
  {
    hide Validate, Reportable, ReconcilePass, SpecOk, OrderOf, QuietAfter;
    var spec := cl.models[key].spec;
    if forall e, e' :: Reportable(spec, e) && Reportable(spec, e') ==> e == e' {
      forall x, x1 | Answered(cl, key, x) && Answered(cl, key, x1) ensures QuietAfter(cl, key, x, x1) {
        ValidateExactly(spec, x.order);
        ValidateExactly(spec, x1.order);
        Fixpoint(cl, key, x, x1);
        QuietIf(cl, key, x, x1);
      }
    } else {
      var e, e' :| Reportable(spec, e) && Reportable(spec, e') && e != e';
      var o := ReportedUnderSomeOrder(spec, e);
      var o1 := ReportedUnderSomeOrder(spec, e');
      var x := InputsWith(o);
      var x1 := InputsWith(o1);
      OtherErrorRewrites(cl, key, x, x1);
    }
  }

  /** Such a spec exists: two passes that iterate its requests in different orders do not settle. */
  lemma OrdersKeepRewriting(key: Key) returns (cl: Cluster, x: Inputs, x1: Inputs)
    ensures key in cl.models && cl.models[key].spec == TwiceNegative
    ensures Answered(cl, key, x) && Answered(cl, key, x1) && !QuietAfter(cl, key, x, x1)
  {
    hide Validate, OrderOf, ReconcilePass, QuietAfter;
    var o, o1 := OrderDecidesReport();
    cl := Cluster(map[key := ModelDeployment("u", 1, false, TwiceNegative, BlankStatus)], map[], map[], 0, 0, 0);
    x := InputsWith(o);
    x1 := InputsWith(o1);
    assert "cpu"[0] != "memory"[0];
    OtherErrorRewrites(cl, key, x, x1);
  }

  lemma QuietIf(cl: Cluster, key: Key, x: Inputs, x1: Inputs)
    requires Answered(cl, key, x) && Answered(cl, key, x1)
    requires OrderFits(ReconcilePass(cl, key, x).cluster, key, x1.order)
    requires ReconcilePass(ReconcilePass(cl, key, x).cluster, key, x1) == ReconcilePass(cl, key, x)
    ensures QuietAfter(cl, key, x, x1)
  {
  }
}
