/**
  The ModelDeployment controller: one reconcile pass over a mutable cluster.
  The API server bumps `generation` when a spec changes; any call to it may fail,
  before or after it took effect.
*/
module Reconciler {
  import opened Redis
  import opened ModelSpecs
  import opened Conditions
  import opened Ownership

  datatype Key = Key(namespace: string, name: string)

  // ---------------------------------------------------------------- cluster objects

  datatype ModelStatus = ModelStatus(
    observedGeneration: int,
    desiredReplicas: int,
    readyReplicas: int,
    activeModel: string,
    activeVersion: string,
    endpoint: string,
    conditions: seq<Condition>)

  const BlankStatus := ModelStatus(0, 0, 0, "", "", "", [])

  datatype ModelDeployment = ModelDeployment(
    uid: string,
    generation: nat,
    deleting: bool,
    spec: ModelSpec,
    status: ModelStatus)

  type Labels = map<string, string>

  /** The constant part of what is rendered: strategy, security context, probes and the like. */
  datatype Constants = Prescribed | Drifted(what: string)

  datatype PodTemplate = PodTemplate(
    labels: Labels,
    annotations: Labels,
    model: string,
    version: string,
    image: string,
    port: int,
    resources: Resources,
    rest: Constants)

  datatype DeploymentSpec = DeploymentSpec(replicas: int, selector: Labels, template: PodTemplate, rest: Constants)

  datatype DeploymentCondition = DeploymentCondition(progressing: bool, status: Truth, reason: string, message: string)

  datatype DeploymentStatus = DeploymentStatus(
    observedGeneration: int,
    replicas: int,
    updated: int,
    available: int,
    ready: int,
    conditions: seq<DeploymentCondition>)

  datatype Deployment = Deployment(
    owners: seq<OwnerRef>,
    labels: Labels,
    generation: nat,
    spec: DeploymentSpec,
    status: DeploymentStatus)

  datatype ServiceType = ClusterIP | OtherType(name: string)
  datatype Affinity = NoAffinity | ClientIP
  datatype ServicePort = ServicePort(name: string, protocol: string, port: int, target: string)

  /** `granted` stands for the fields the server fills in, such as the cluster IP. */
  datatype Service = Service(
    owners: seq<OwnerRef>,
    labels: Labels,
    kind: ServiceType,
    selector: Labels,
    affinity: Affinity,
    ports: seq<ServicePort>,
    granted: string)

  datatype Cluster = Cluster(
    models: map<Key, ModelDeployment>,
    deployments: map<Key, Deployment>,
    services: map<Key, Service>,
    creates: nat,
    updates: nat,
    statusUpdates: nat)

  // ---------------------------------------------------------------- rendering

  function ChildLabels(key: Key): Labels {
    map["app.kubernetes.io/name" := "model-runtime",
        "app.kubernetes.io/instance" := key.name,
        "app.kubernetes.io/managed-by" := "kernexys-controller"]
  }

  function OwnerOf(key: Key, md: ModelDeployment): OwnerRef {
    OwnerRef("platform.kernexys.io", "ModelDeployment", key.name, md.uid, true)
  }

  function RenderedSpec(key: Key, spec: ModelSpec): DeploymentSpec {
    var labels := ChildLabels(key);
    DeploymentSpec(
      DesiredReplicas(spec),
      labels,
      PodTemplate(
        labels,
        map["platform.kernexys.io/model" := spec.model, "platform.kernexys.io/version" := spec.version],
        spec.model, spec.version, spec.image, DesiredPort(spec), EffectiveResources(spec), Prescribed),
      Prescribed)
  }

  /** The Deployment controller's fields are replaced wholesale. */
  function MutatedDeployment(key: Key, spec: ModelSpec, d: Deployment): Deployment {
    d.(labels := ChildLabels(key), spec := RenderedSpec(key, spec))
  }

  const HttpPorts := [ServicePort("http", "TCP", 80, "http")]

  /** Only the managed fields of a Service are replaced. */
  function MutatedService(key: Key, s: Service): Service {
    s.(labels := ChildLabels(key), kind := ClusterIP, selector := ChildLabels(key), affinity := NoAffinity,
        ports := HttpPorts)
  }

  // ---------------------------------------------------------------- calls to the server

  datatype Fault = Works | Refuses | LosesReply {
    predicate Errs() { !Works? }
    predicate TakesEffect() { !Refuses? }
  }

  /** How each call of a pass to the server turns out. */
  datatype Faults = Faults(
    getModel: bool,
    getDeployment: bool,
    writeDeployment: Fault,
    getService: bool,
    writeService: Fault,
    writeStatus: Fault)

  const NoFaults := Faults(false, false, Works, false, Works, Works)

  datatype ChildPass = ChildPass(cluster: Cluster, error: Option<ChildError>)

  const NewDeploymentStatus := DeploymentStatus(0, 0, 0, 0, 0, [])

  /** What the server stores: a new Deployment at generation 1; the generation grows when the spec changes. */
  function AcceptedDeployment(was: Option<Deployment>, d: Deployment): Deployment {
    match was
    case None => d.(generation := 1, status := NewDeploymentStatus)
    case Some(w) => d.(generation := if d.spec == w.spec then w.generation else w.generation + 1, status := w.status)
  }

  function AcceptedService(was: Option<Service>, s: Service, granted: string): Service {
    s.(granted := if was.Some? then was.value.granted else granted)
  }

  function Get<T>(m: map<Key, T>, key: Key): Option<T> { if key in m then Some(m[key]) else None }

  function StoredDeployment(cl: Cluster, key: Key, d: Deployment): Cluster {
    var stored := cl.(deployments := cl.deployments[key := AcceptedDeployment(Get(cl.deployments, key), d)]);
    if key in cl.deployments then stored.(updates := cl.updates + 1) else stored.(creates := cl.creates + 1)
  }

  function StoredService(cl: Cluster, key: Key, s: Service, granted: string): Cluster {
    var stored := cl.(services := cl.services[key := AcceptedService(Get(cl.services, key), s, granted)]);
    if key in cl.services then stored.(updates := cl.updates + 1) else stored.(creates := cl.creates + 1)
  }

  const EmptyTemplate := PodTemplate(map[], map[], "", "", "", 0, Resources(map[], map[]), Drifted(""))
  const EmptySpec := DeploymentSpec(0, map[], EmptyTemplate, Drifted(""))
  const EmptyDeployment := Deployment([], map[], 0, EmptySpec, NewDeploymentStatus)
  const EmptyService := Service([], map[], ClusterIP, map[], NoAffinity, [], "")

  /** What to do about a child that was read: refuse to touch it, leave it, or write it. */
  datatype Plan<T> = Refuse(error: ChildError) | Leave(current: T) | Write(wanted: T)

  /** Ownership check, then mutation, then comparison with what was read. */
  function PlanDeployment(key: Key, md: ModelDeployment, seen: Option<Deployment>): Plan<Deployment> {
    var d := if seen.Some? then seen.value else EmptyDeployment;
    match Claim(seen.Some?, d.owners, OwnerOf(key, md))
    case Refused(error) => Refuse(error)
    case Mine(owners) =>
      var wanted := MutatedDeployment(key, md.spec, d.(owners := owners));
      if seen.Some? && wanted == d then Leave(d) else Write(wanted)
  }

  function PlanService(key: Key, md: ModelDeployment, seen: Option<Service>): Plan<Service> {
    var s := if seen.Some? then seen.value else EmptyService;
    match Claim(seen.Some?, s.owners, OwnerOf(key, md))
    case Refused(error) => Refuse(error)
    case Mine(owners) =>
      var wanted := MutatedService(key, s.(owners := owners));
      if seen.Some? && wanted == s then Leave(s) else Write(wanted)
  }

  /** CreateOrUpdate of the Deployment. */
  function EnsureDeployment(cl: Cluster, key: Key, md: ModelDeployment, faults: Faults): (r: ChildPass)
    ensures r.cluster.models == cl.models && r.cluster.services == cl.services
    ensures r.error.None? ==> key in r.cluster.deployments
  {
    if faults.getDeployment then ChildPass(cl, Some(ServerError))
    else match PlanDeployment(key, md, Get(cl.deployments, key))
      case Refuse(error) => ChildPass(cl, Some(error))
      case Leave(_) => ChildPass(cl, None)
      case Write(wanted) =>
        ChildPass(if faults.writeDeployment.TakesEffect() then StoredDeployment(cl, key, wanted) else cl,
                  if faults.writeDeployment.Errs() then Some(ServerError) else None)
  }

  /** CreateOrUpdate of the Service. */
  function EnsureService(cl: Cluster, key: Key, md: ModelDeployment, faults: Faults, granted: string): (r: ChildPass)
    ensures r.cluster.models == cl.models && r.cluster.deployments == cl.deployments
    ensures r.error.None? ==> key in r.cluster.services
  {
    if faults.getService then ChildPass(cl, Some(ServerError))
    else match PlanService(key, md, Get(cl.services, key))
      case Refuse(error) => ChildPass(cl, Some(error))
      case Leave(_) => ChildPass(cl, None)
      case Write(wanted) =>
        ChildPass(if faults.writeService.TakesEffect() then StoredService(cl, key, wanted, granted) else cl,
                  if faults.writeService.Errs() then Some(ServerError) else None)
  }

  // ---------------------------------------------------------------- status

  function InvalidReport(error: SpecError): Report {
    Report(Cell(No, "InvalidSpec", Text("Desired state is invalid.")),
           Cell(No, "InvalidSpec", Text("Reconciliation is paused until the desired state is corrected.")),
           Cell(Yes, "InvalidSpec", SpecProblem(error)))
  }

  function ErrorReport(reason: string, error: ChildError): Report {
    Report(Cell(No, reason, Text("The desired workload could not be reconciled.")),
           Cell(No, reason, Text("controller-runtime will retry the transient failure.")),
           Cell(Yes, reason, ChildProblem(error)))
  }

  /** All replicas of the current generation are up and no old ones remain. */
  predicate RolledOut(d: Deployment, replicas: int) {
    && d.status.observedGeneration == d.generation
    && d.status.replicas == replicas && d.status.updated == replicas && d.status.available == replicas
    && d.status.ready == replicas
  }

  function FirstFailure(cs: seq<DeploymentCondition>): Option<DeploymentCondition> {
    if cs == [] then None
    else if cs[0].progressing && cs[0].status == No then Some(cs[0])
    else FirstFailure(cs[1..])
  }

  function TerminalFailure(d: Deployment): Option<DeploymentCondition> {
    if d.status.observedGeneration != d.generation then None else FirstFailure(d.status.conditions)
  }

  function ObservedReport(d: Deployment, replicas: int): Report {
    var up, failure, waiting := RolledOut(d, replicas), TerminalFailure(d), Waiting(d.status.ready, replicas);
    var succeeded := Cell(No, "ReconcileSucceeded", Text("The desired child resources were reconciled."));
    Report(
      if up then Cell(Yes, "MinimumReplicasAvailable", Text("All desired runtime replicas are available."))
      else Cell(No, "ReplicasNotReady", waiting),
      if failure.Some? then Cell(No, failure.value.reason, Text(failure.value.message))
      else if up then Cell(No, "RolloutComplete", Text("The runtime rollout is complete."))
      else Cell(Yes, "Reconciling", waiting),
      if failure.Some? then Cell(Yes, failure.value.reason, Text(failure.value.message)) else succeeded)
  }

  /** The part of the status every path writes. */
  function Reporting(md: ModelDeployment, report: Report, now: int): ModelStatus {
    md.status.(observedGeneration := md.generation,
               desiredReplicas := DesiredReplicas(md.spec),
               conditions := Reported(md.status.conditions, md.generation, report, now))
  }

  function ObservedStatus(key: Key, md: ModelDeployment, d: Deployment, now: int): ModelStatus {
    var replicas := DesiredReplicas(md.spec);
    var status := Reporting(md, ObservedReport(d, replicas), now).(
      readyReplicas := d.status.ready,
      endpoint := "http://" + key.name + "." + key.namespace + ".svc.cluster.local");
    if RolledOut(d, replicas) then status.(activeModel := md.spec.model, activeVersion := md.spec.version) else status
  }

  /** The status is written only when it differs from what was read. */
  function StatusWritten(cl: Cluster, key: Key, status: ModelStatus, fault: Fault): Cluster
    requires key in cl.models
  {
    if cl.models[key].status == status || !fault.TakesEffect() then cl
    else cl.(models := cl.models[key := cl.models[key].(status := status)], statusUpdates := cl.statusUpdates + 1)
  }

  predicate StatusFails(cl: Cluster, key: Key, status: ModelStatus, fault: Fault)
    requires key in cl.models
  {
    cl.models[key].status != status && fault.Errs()
  }

  // ---------------------------------------------------------------- the pass

  datatype Outcome = Ignored | Rejected | Reconciled | Failed

  datatype Pass = Pass(cluster: Cluster, outcome: Outcome)

  function Finish(cl: Cluster, key: Key, status: ModelStatus, fault: Fault, outcome: Outcome): Pass
    requires key in cl.models
  {
    Pass(StatusWritten(cl, key, status, fault), if StatusFails(cl, key, status, fault) then Failed else outcome)
  }

  /** The inputs of a pass besides the cluster: the clock, the map order, what the server assigns, and its faults. */
  datatype Inputs = Inputs(now: int, order: Order, granted: string, faults: Faults)

  ghost predicate OrderFits(cl: Cluster, key: Key, order: Order) {
    key in cl.models ==> OrderOf(order, cl.models[key].spec.resources)
  }

  /** The pass for a model that exists and validates. */
  function ReconcileValid(cl: Cluster, key: Key, x: Inputs): Pass
    requires key in cl.models
  {
    var md := cl.models[key];
    var d := EnsureDeployment(cl, key, md, x.faults);
    if d.error.Some? then
      Finish(d.cluster, key, Reporting(md, ErrorReport("DeploymentReconcileFailed", d.error.value), x.now),
          x.faults.writeStatus, Failed)
    else
      var s := EnsureService(d.cluster, key, md, x.faults, x.granted);
      if s.error.Some? then
        Finish(s.cluster, key, Reporting(md, ErrorReport("ServiceReconcileFailed", s.error.value), x.now),
            x.faults.writeStatus, Failed)
      else
        Finish(s.cluster, key, ObservedStatus(key, md, s.cluster.deployments[key], x.now), x.faults.writeStatus,
            Reconciled)
  }

  function ReconcilePass(cl: Cluster, key: Key, x: Inputs): Pass
    requires OrderFits(cl, key, x.order)
  {
    if x.faults.getModel then Pass(cl, Failed)
    else if key !in cl.models || cl.models[key].deleting then Pass(cl, Ignored)
    else
      var md := cl.models[key];
      var error := Validate(md.spec, x.order);
      if error.Some? then
        Finish(cl, key, Reporting(md, InvalidReport(error.value), x.now), x.faults.writeStatus, Rejected)
      else ReconcileValid(cl, key, x)
  }
}
