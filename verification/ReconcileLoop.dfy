/** The controller as it runs: a pass that edits the cluster object by object, proved against `ReconcilePass`. */
module ReconcileLoop {
  import opened Redis
  import opened ModelSpecs
  import opened Conditions
  import opened Ownership
  import opened Reconciler
  import Convergence

  /** The first Deployment condition that says the rollout of the current generation has failed. */
  method TerminalDeploymentFailure(d: Deployment) returns (failure: Option<DeploymentCondition>)
    ensures failure == TerminalFailure(d)
    ensures failure.Some? ==>
              && d.status.observedGeneration == d.generation
              && exists i :: Convergence.FailsFirstAt(d.status.conditions, i) && d.status.conditions[i] == failure.value
    ensures failure.None? && d.status.observedGeneration == d.generation ==>
              forall c :: c in d.status.conditions ==> !(c.progressing && c.status == No)
  {
    if d.status.observedGeneration != d.generation {
      return None;
    }
    var cs := d.status.conditions;
    var i := 0;
    while i < |cs|
      invariant 0 <= i <= |cs|
      invariant forall j :: 0 <= j < i ==> !(cs[j].progressing && cs[j].status == No)
      invariant FirstFailure(cs[i..]) == FirstFailure(cs)
    {
      if cs[i].progressing && cs[i].status == No {
        assert Convergence.FailsFirstAt(cs, i);
        return Some(cs[i]);
      }
      assert cs[i..][1..] == cs[i + 1..];
      i := i + 1;
    }
    return None;
  }

  /** What is reported of an observed Deployment: is it up, is it on its way, has it failed. */
  method ReportOn(d: Deployment, replicas: int) returns (up: bool, report: Report)
    ensures up == RolledOut(d, replicas) && report == ObservedReport(d, replicas)
  {
    hide FirstFailure, Convergence.FailsFirstAt;
    var ready := d.status.ready;
    up := d.status.observedGeneration == d.generation
          && d.status.replicas == replicas && d.status.updated == replicas
          && d.status.available == replicas && ready == replicas;
    var failure := TerminalDeploymentFailure(d);
    var available, progressing, degraded;
    if up {
      available := Cell(Yes, "MinimumReplicasAvailable", Text("All desired runtime replicas are available."));
    } else {
      available := Cell(No, "ReplicasNotReady", Waiting(ready, replicas));
    }
    if failure.Some? {
      progressing := Cell(No, failure.value.reason, Text(failure.value.message));
      degraded := Cell(Yes, failure.value.reason, Text(failure.value.message));
    } else if up {
      progressing := Cell(No, "RolloutComplete", Text("The runtime rollout is complete."));
      degraded := Cell(No, "ReconcileSucceeded", Text("The desired child resources were reconciled."));
    } else {
      progressing := Cell(Yes, "Reconciling", Waiting(ready, replicas));
      degraded := Cell(No, "ReconcileSucceeded", Text("The desired child resources were reconciled."));
    }
    report := Report(available, progressing, degraded);
  }

  /** Sets the three conditions one after the other. */
  method SetConditions(cs: seq<Condition>, generation: int, report: Report, now: int) returns (r: seq<Condition>)
    ensures r == Reported(cs, generation, report, now)
  {
    r := SetStatusCondition(cs, Condition(Available, report.available, generation, now));
    r := SetStatusCondition(r, Condition(Progressing, report.progressing, generation, now));
    r := SetStatusCondition(r, Condition(Degraded, report.degraded, generation, now));
  }

  /** What a successful pass leaves: the workload asked for, and a status that tells the truth about it. */
  ghost predicate Succeeded(cl: Cluster, cl': Cluster, key: Key) {
    && key in cl.models && key in cl'.models && key in cl'.deployments && key in cl'.services
    && Convergence.TellsTheTruth(cl'.models[key].status, key, cl'.deployments[key], cl.models[key])
    && Convergence.RunsWhatWasAsked(cl'.deployments[key], cl'.services[key], key, cl.models[key])
  }

  lemma PassSays(cl: Cluster, key: Key, x: Inputs)
    requires OrderFits(cl, key, x.order)
    ensures ReconcilePass(cl, key, x).outcome == Reconciled ==> Succeeded(cl, ReconcilePass(cl, key, x).cluster, key)
  {
    hide ReconcilePass, OrderFits, Convergence.TellsTheTruth, Convergence.RunsWhatWasAsked;
    if ReconcilePass(cl, key, x).outcome == Reconciled {
      Convergence.StatusTellsTheTruth(cl, key, x);
      Convergence.WorkloadAsAsked(cl, key, x);
    }
  }

  class ModelDeploymentReconciler {
    var models: map<Key, ModelDeployment>
    var deployments: map<Key, Deployment>
    var services: map<Key, Service>
    var creates: nat
    var updates: nat
    var statusUpdates: nat

    function Contents(): Cluster
      reads this
    {
      Cluster(models, deployments, services, creates, updates, statusUpdates)
    }

    constructor (cl: Cluster)
      ensures Contents() == cl
    {
      models, deployments, services := cl.models, cl.deployments, cl.services;
      creates, updates, statusUpdates := cl.creates, cl.updates, cl.statusUpdates;
    }

    method UpdateStatusIfChanged(key: Key, status: ModelStatus, fault: Fault) returns (failed: bool)
      requires key in models
      modifies this`models, this`statusUpdates
      ensures Contents() == StatusWritten(old(Contents()), key, status, fault)
      ensures failed == StatusFails(old(Contents()), key, status, fault)
      ensures fault.Refuses? || status == old(models)[key].status ==>
                models == old(models) && statusUpdates == old(statusUpdates)
      ensures !fault.Refuses? && status != old(models)[key].status ==>
                && models == old(models)[key := old(models)[key].(status := status)]
                && statusUpdates == old(statusUpdates) + 1
      ensures failed <==> status != old(models)[key].status && !fault.Works?
    {
      if models[key].status == status {
        return false;
      }
      if fault.TakesEffect() {
        models := models[key := models[key].(status := status)];
        statusUpdates := statusUpdates + 1;
      }
      return fault.Errs();
    }

    method ReportAndStop(key: Key, md: ModelDeployment, report: Report, now: int, fault: Fault) returns (failed: bool)
      requires key in models && models[key] == md
      modifies this`models, this`statusUpdates
      ensures Contents() == StatusWritten(old(Contents()), key, Reporting(md, report, now), fault)
      ensures failed == StatusFails(old(Contents()), key, Reporting(md, report, now), fault)
    {
      var conditions := SetConditions(md.status.conditions, md.generation, report, now);
      var desired := md.status.(observedGeneration := md.generation, desiredReplicas := DesiredReplicas(md.spec),
          conditions := conditions);
      failed := UpdateStatusIfChanged(key, desired, fault);
    }

    method UpdateObservedStatus(key: Key, md: ModelDeployment, d: Deployment, now: int, fault: Fault)
      returns (failed: bool)
      requires key in models && models[key] == md
      modifies this`models, this`statusUpdates
      ensures Contents() == StatusWritten(old(Contents()), key, ObservedStatus(key, md, d, now), fault)
      ensures failed == StatusFails(old(Contents()), key, ObservedStatus(key, md, d, now), fault)
      ensures !fault.Refuses? ==> key in models && Convergence.TellsTheTruth(models[key].status, key, d, md)
    {
      hide Convergence.TellsTheTruth, StatusWritten, StatusFails, Reported, ObservedReport, RolledOut;
      Convergence.ObservedTruth(key, md, d, now);
      var replicas := DesiredReplicas(md.spec);
      var up, report := ReportOn(d, replicas);
      var desired := md.status.(observedGeneration := md.generation, desiredReplicas := replicas,
                                readyReplicas := d.status.ready,
                                endpoint := "http://" + key.name + "." + key.namespace + ".svc.cluster.local");
      if up {
        desired := desired.(activeModel := md.spec.model, activeVersion := md.spec.version);
      }
      var conditions := SetConditions(md.status.conditions, md.generation, report, now);
      desired := desired.(conditions := conditions);
      failed := UpdateStatusIfChanged(key, desired, fault);
    }

    method CreateOrUpdateDeployment(key: Key, md: ModelDeployment, faults: Faults) returns (error: Option<ChildError>)
      modifies this`deployments, this`creates, this`updates
      ensures ChildPass(Contents(), error) == EnsureDeployment(old(Contents()), key, md, faults)
    {
      if faults.getDeployment {
        return Some(ServerError);
      }
      var found := key in deployments;
      var d := if found then deployments[key] else EmptyDeployment;
      var claimed := Claim(found, d.owners, OwnerOf(key, md));
      if claimed.Refused? {
        return Some(claimed.error);
      }
      var wanted := MutatedDeployment(key, md.spec, d.(owners := claimed.owners));
      if found && wanted == d {
        return None;
      }
      if faults.writeDeployment.TakesEffect() {
        if !found {
          deployments := deployments[key := wanted.(generation := 1, status := NewDeploymentStatus)];
          creates := creates + 1;
        } else {
          var generation := if wanted.spec == d.spec then d.generation else d.generation + 1;
          deployments := deployments[key := wanted.(generation := generation, status := d.status)];
          updates := updates + 1;
        }
      }
      return if faults.writeDeployment.Errs() then Some(ServerError) else None;
    }

    method CreateOrUpdateService(key: Key, md: ModelDeployment, faults: Faults, granted: string)
      returns (error: Option<ChildError>)
      modifies this`services, this`creates, this`updates
      ensures ChildPass(Contents(), error) == EnsureService(old(Contents()), key, md, faults, granted)
    {
      if faults.getService {
        return Some(ServerError);
      }
      var found := key in services;
      var s := if found then services[key] else EmptyService;
      var claimed := Claim(found, s.owners, OwnerOf(key, md));
      if claimed.Refused? {
        return Some(claimed.error);
      }
      var wanted := MutatedService(key, s.(owners := claimed.owners));
      if found && wanted == s {
        return None;
      }
      if faults.writeService.TakesEffect() {
        if !found {
          services := services[key := wanted.(granted := granted)];
          creates := creates + 1;
        } else {
          services := services[key := wanted.(granted := s.granted)];
          updates := updates + 1;
        }
      }
      return if faults.writeService.Errs() then Some(ServerError) else None;
    }

    method Reconcile(key: Key, x: Inputs) returns (outcome: Outcome)
      requires OrderFits(Contents(), key, x.order)
      modifies this
      ensures Pass(Contents(), outcome) == ReconcilePass(old(Contents()), key, x)
      ensures outcome == Reconciled ==> Succeeded(old(Contents()), Contents(), key)
    {
      hide Succeeded, Convergence.TellsTheTruth, InvalidReport, ErrorReport, StatusFails;
      PassSays(Contents(), key, x);
      hide EnsureDeployment, EnsureService, Validate, Reporting, ObservedStatus, StatusWritten, SpecOk;
      if x.faults.getModel {
        return Failed;
      }
      if key !in models || models[key].deleting {
        return Ignored;
      }
      var md := models[key];
      var invalid := ValidateSpec(md.spec, x.order);
      if invalid.Some? {
        var failed := ReportAndStop(key, md, InvalidReport(invalid.value), x.now, x.faults.writeStatus);
        return if failed then Failed else Rejected;
      }
      var error := CreateOrUpdateDeployment(key, md, x.faults);
      if error.Some? {
        var _ := ReportAndStop(key, md, ErrorReport("DeploymentReconcileFailed", error.value), x.now,
            x.faults.writeStatus);
        return Failed;
      }
      error := CreateOrUpdateService(key, md, x.faults, x.granted);
      if error.Some? {
        var _ := ReportAndStop(key, md, ErrorReport("ServiceReconcileFailed", error.value), x.now,
            x.faults.writeStatus);
        return Failed;
      }
      var failed := UpdateObservedStatus(key, md, deployments[key], x.now, x.faults.writeStatus);
      return if failed then Failed else Reconciled;
    }
  }
}
