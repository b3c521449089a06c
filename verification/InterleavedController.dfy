/**
  The controller with its calls taken apart.  Between any two calls of a pass anyone
  may change the cluster, and what a pass reads comes from a cache: it may be any
  version of the object the cluster ever held, or nothing.  Writes carry the revision
  that was read, and the server refuses a write whose revision is not the stored one.
*/
module InterleavedController {
  import opened Redis
  import opened ModelSpecs
  import opened Conditions
  import opened Ownership
  import opened Reconciler
  import opened Convergence
  import ControllerRuns

  /** An object together with its resource version. */
  datatype Versioned<T> = Versioned(value: T, revision: nat)

  /** Everything the cluster ever stored. */
  datatype Entry =
    | ModelAt(key: Key, model: Versioned<ModelDeployment>)
    | DeploymentAt(key: Key, deployment: Versioned<Deployment>)
    | ServiceAt(key: Key, service: Versioned<Service>)
  {
    function Revision(): nat {
      match this
      case ModelAt(_, m) => m.revision
      case DeploymentAt(_, d) => d.revision
      case ServiceAt(_, s) => s.revision
    }
  }

  /** How far a pass has come, with what it holds in memory. */
  datatype Progress =
    | Fetched(md: Versioned<ModelDeployment>)
    | SawDeployment(md: Versioned<ModelDeployment>, seenDeployment: Option<Versioned<Deployment>>)
    | DeploymentDone(md: Versioned<ModelDeployment>, d: Versioned<Deployment>)
    | SawService(md: Versioned<ModelDeployment>, d: Versioned<Deployment>, seenService: Option<Versioned<Service>>)
    | HasReport(md: Versioned<ModelDeployment>, status: ModelStatus, report: Report)

  datatype State = State(
    models: map<Key, Versioned<ModelDeployment>>,
    deployments: map<Key, Versioned<Deployment>>,
    services: map<Key, Versioned<Service>>,
    log: set<Entry>,
    revision: nat,                // larger than every revision handed out
    passes: map<Key, Progress>)   // at most one pass per model at a time

  datatype Event =
    | Begin(key: Key, cached: Versioned<ModelDeployment>, order: Order, now: int)
    | ReadDeployment(key: Key, cachedDeployment: Option<Versioned<Deployment>>)
    | SettleDeployment(key: Key, fault: Fault, now: int)
    | ReadService(key: Key, cachedService: Option<Versioned<Service>>)
    | SettleService(key: Key, fault: Fault, granted: string, now: int)
    | FailRead(key: Key, now: int)
    | WriteStatus(key: Key, fault: Fault)
    | GiveUp(key: Key)
    // everyone else
    | CreateModel(key: Key, uid: string, spec: ModelSpec)
    | ChangeSpec(key: Key, spec: ModelSpec)
    | MarkDeleted(key: Key)
    | RemoveModel(key: Key)
    | ReportRollout(key: Key, rollout: DeploymentStatus)
    | EditDeployment(key: Key, owners: seq<OwnerRef>, labels: Labels, edited: DeploymentSpec)
    | RemoveDeployment(key: Key)
    | EditService(key: Key, service: Service)
    | RemoveService(key: Key)

  // ---------------------------------------------------------------- writes

  function PutModel(s: State, key: Key, md: ModelDeployment): State {
    var v := Versioned(md, s.revision);
    s.(models := s.models[key := v], log := s.log + {ModelAt(key, v)}, revision := s.revision + 1)
  }

  function PutDeployment(s: State, key: Key, d: Deployment): State {
    var v := Versioned(d, s.revision);
    s.(deployments := s.deployments[key := v], log := s.log + {DeploymentAt(key, v)}, revision := s.revision + 1)
  }

  function PutService(s: State, key: Key, service: Service): State {
    var v := Versioned(service, s.revision);
    s.(services := s.services[key := v], log := s.log + {ServiceAt(key, v)}, revision := s.revision + 1)
  }

  function Value<T>(o: Option<Versioned<T>>): Option<T> { if o.Some? then Some(o.value.value) else None }

  /** The optimistic check: create only what is absent, update only what was read. */
  predicate Unchanged<T>(stored: Option<Versioned<T>>, seen: Option<Versioned<T>>) {
    if seen.None? then stored.None? else stored.Some? && stored.value.revision == seen.value.revision
  }

  // ---------------------------------------------------------------- the steps of a pass

  function Move(s: State, key: Key, p: Progress): State { s.(passes := s.passes[key := p]) }

  function Failing(md: Versioned<ModelDeployment>, reason: string, error: ChildError, now: int): Progress {
    HasReport(md, Reporting(md.value, ErrorReport(reason, error), now), ErrorReport(reason, error))
  }

  function Begun(md: Versioned<ModelDeployment>, order: Order, now: int): Progress
    requires OrderOf(order, md.value.spec.resources)
  {
    var error := Validate(md.value.spec, order);
    if error.None? then Fetched(md)
    else HasReport(md, Reporting(md.value, InvalidReport(error.value), now), InvalidReport(error.value))
  }

  /** Does settling the Deployment write, and does the server take it? */
  predicate StoresDeployment(s: State, key: Key, p: Progress, fault: Fault)
    requires p.SawDeployment?
  {
    && PlanDeployment(key, p.md.value, Value(p.seenDeployment)).Write?
    && Unchanged(Get(s.deployments, key), p.seenDeployment) && !fault.Refuses?
  }

  function StoreDeployment(s: State, key: Key, p: Progress, fault: Fault): State
    requires p.SawDeployment?
  {
    if !StoresDeployment(s, key, p, fault) then s
    else
      var seen := Value(p.seenDeployment);
      PutDeployment(s, key, AcceptedDeployment(seen, PlanDeployment(key, p.md.value, seen).wanted))
  }

  function SettledDeployment(s: State, key: Key, p: Progress, fault: Fault, now: int): Progress
    requires p.SawDeployment?
  {
    match PlanDeployment(key, p.md.value, Value(p.seenDeployment))
    case Refuse(error) => Failing(p.md, "DeploymentReconcileFailed", error, now)
    case Leave(_) => DeploymentDone(p.md, p.seenDeployment.value)
    case Write(wanted) =>
      if StoresDeployment(s, key, p, fault) && fault.Works? then
        DeploymentDone(p.md, Versioned(AcceptedDeployment(Value(p.seenDeployment), wanted), s.revision))
      else Failing(p.md, "DeploymentReconcileFailed", ServerError, now)
  }

  function Observing(key: Key, md: Versioned<ModelDeployment>, d: Deployment, now: int): Progress {
    HasReport(md, ObservedStatus(key, md.value, d, now), ObservedReport(d, DesiredReplicas(md.value.spec)))
  }

  predicate StoresService(s: State, key: Key, p: Progress, fault: Fault)
    requires p.SawService?
  {
    && PlanService(key, p.md.value, Value(p.seenService)).Write?
    && Unchanged(Get(s.services, key), p.seenService) && !fault.Refuses?
  }

  function StoreService(s: State, key: Key, p: Progress, fault: Fault, granted: string): State
    requires p.SawService?
  {
    if !StoresService(s, key, p, fault) then s
    else
      var seen := Value(p.seenService);
      PutService(s, key, AcceptedService(seen, PlanService(key, p.md.value, seen).wanted, granted))
  }

  function SettledService(s: State, key: Key, p: Progress, fault: Fault, now: int): Progress
    requires p.SawService?
  {
    match PlanService(key, p.md.value, Value(p.seenService))
    case Refuse(error) => Failing(p.md, "ServiceReconcileFailed", error, now)
    case Leave(_) => Observing(key, p.md, p.d.value, now)
    case Write(_) =>
      if StoresService(s, key, p, fault) && fault.Works? then Observing(key, p.md, p.d.value, now)
      else Failing(p.md, "ServiceReconcileFailed", ServerError, now)
  }

  /** A child could not be read. */
  function ReadFailed(p: Progress, now: int): Progress {
    Failing(p.md, if p.Fetched? then "DeploymentReconcileFailed" else "ServiceReconcileFailed", ServerError, now)
  }

  /** The status write ends the pass, whether it went through or not. */
  function ApplyWriteStatus(s: State, key: Key, p: Progress, fault: Fault): State
    requires p.HasReport?
  {
    var done := s.(passes := s.passes - {key});
    if p.status == p.md.value.status || fault.Refuses? || !Unchanged(Get(s.models, key), Some(p.md)) then done
    else PutModel(done, key, p.md.value.(status := p.status))
  }

  ghost predicate Enabled(s: State, e: Event) {
    match e
    case Begin(key, cached, order, _) =>
      && key !in s.passes && ModelAt(key, cached) in s.log && !cached.value.deleting
      && OrderOf(order, cached.value.spec.resources)
    case ReadDeployment(key, cached) =>
      key in s.passes && s.passes[key].Fetched? && (cached.Some? ==> DeploymentAt(key, cached.value) in s.log)
    case SettleDeployment(key, _, _) => key in s.passes && s.passes[key].SawDeployment?
    case ReadService(key, cached) =>
      key in s.passes && s.passes[key].DeploymentDone? && (cached.Some? ==> ServiceAt(key, cached.value) in s.log)
    case SettleService(key, _, _, _) => key in s.passes && s.passes[key].SawService?
    case FailRead(key, _) => key in s.passes && (s.passes[key].Fetched? || s.passes[key].DeploymentDone?)
    case WriteStatus(key, _) => key in s.passes && s.passes[key].HasReport?
    case GiveUp(key) => key in s.passes
    case CreateModel(key, _, _) => key !in s.models
    case ChangeSpec(key, _) => key in s.models
    case MarkDeleted(key) => key in s.models
    case ReportRollout(key, rollout) =>
      key in s.deployments && rollout.observedGeneration <= s.deployments[key].value.generation
    case _ => true
  }

  function Apply(s: State, e: Event): State
    requires Enabled(s, e)
  {
    match e
    case Begin(key, cached, order, now) => Move(s, key, Begun(cached, order, now))
    case ReadDeployment(key, cached) => Move(s, key, SawDeployment(s.passes[key].md, cached))
    case SettleDeployment(key, fault, now) =>
      Move(StoreDeployment(s, key, s.passes[key], fault), key, SettledDeployment(s, key, s.passes[key], fault, now))
    case ReadService(key, cached) => Move(s, key, SawService(s.passes[key].md, s.passes[key].d, cached))
    case SettleService(key, fault, granted, now) =>
      Move(StoreService(s, key, s.passes[key], fault, granted), key, SettledService(s, key, s.passes[key], fault, now))
    case FailRead(key, now) => Move(s, key, ReadFailed(s.passes[key], now))
    case WriteStatus(key, fault) => ApplyWriteStatus(s, key, s.passes[key], fault)
    case GiveUp(key) => s.(passes := s.passes - {key})
    case CreateModel(key, uid, spec) => PutModel(s, key, ModelDeployment(uid, 1, false, spec, BlankStatus))
    case ChangeSpec(key, spec) =>
      PutModel(s, key, s.models[key].value.(spec := spec, generation := s.models[key].value.generation + 1))
    case MarkDeleted(key) => PutModel(s, key, s.models[key].value.(deleting := true))
    case RemoveModel(key) => s.(models := s.models - {key})
    case ReportRollout(key, rollout) => PutDeployment(s, key, s.deployments[key].value.(status := rollout))
    case EditDeployment(key, owners, labels, edited) =>
      var wanted := Deployment(owners, labels, 0, edited, NewDeploymentStatus);
      PutDeployment(s, key, AcceptedDeployment(Value(Get(s.deployments, key)), wanted))
    case RemoveDeployment(key) => s.(deployments := s.deployments - {key})
    case EditService(key, service) => PutService(s, key, service)
    case RemoveService(key) => s.(services := s.services - {key})
  }

  ghost predicate Next(s: State, e: Event, s': State) { Enabled(s, e) && s' == Apply(s, e) }

  ghost predicate IsRun(states: seq<State>, events: seq<Event>) {
    && |states| == |events| + 1
    && forall i {:trigger events[i]} :: 0 <= i < |events| ==> Next(states[i], events[i], states[i + 1])
  }

  const Start := State(map[], map[], map[], {}, 0, map[])

  // ---------------------------------------------------------------- the invariant

  /** Some version of the Deployment, stored at some time, had this model version fully rolled out. */
  ghost predicate Served(s: State, key: Key, model: string, version: string) {
    exists e :: e in s.log && ServedBy(e, key, model, version)
  }

  ghost predicate ServedBy(e: Entry, key: Key, model: string, version: string) {
    e.DeploymentAt? && e.key == key && ControllerRuns.Serves(e.deployment.value, model, version)
  }

  ghost predicate ActiveSound(s: State, key: Key, status: ModelStatus) {
    (status.activeModel == "" && status.activeVersion == "") || Served(s, key, status.activeModel, status.activeVersion)
  }

  predicate SaysAvailable(status: ModelStatus) {
    Find(status.conditions, Available).Some? && Find(status.conditions, Available).value.cell.status == Yes
  }

  /** A model shown as available at its current generation had just that version rolled out. */
  ghost predicate AvailableSound(s: State, key: Key, md: ModelDeployment) {
    md.status.observedGeneration == md.generation && SaysAvailable(md.status) ==>
        Served(s, key, md.spec.model, md.spec.version)
  }

  ghost predicate EntrySound(s: State, e: Entry) {
    && e.Revision() < s.revision
    && (e.DeploymentAt? ==> ControllerRuns.Sane(e.deployment.value))
    && (e.ModelAt? ==>
          && ControllerRuns.StatusSane(e.model.value)
          && ActiveSound(s, e.key, e.model.value.status)
          && AvailableSound(s, e.key, e.model.value))
  }

  ghost predicate Current(s: State) {
    && (forall k :: k in s.models ==> ModelAt(k, s.models[k]) in s.log)
    && (forall k :: k in s.deployments ==> DeploymentAt(k, s.deployments[k]) in s.log)
    && (forall k :: k in s.services ==> ServiceAt(k, s.services[k]) in s.log)
  }

  /** A revision names one stored object. */
  ghost predicate Unique(s: State) {
    forall e, f :: e in s.log && f in s.log && e.Revision() == f.Revision() ==> e == f
  }

  ghost predicate LogSound(s: State) {
    (forall e :: e in s.log ==> EntrySound(s, e)) && Current(s) && Unique(s)
  }

  /** The in-memory Deployment is what the model asks for, and was stored at some time. */
  ghost predicate Holds(s: State, key: Key, md: Versioned<ModelDeployment>, d: Versioned<Deployment>) {
    d.value.spec == RenderedSpec(key, md.value.spec) && DeploymentAt(key, d) in s.log
  }

  ghost predicate PassSound(s: State, key: Key, p: Progress) {
    && ModelAt(key, p.md) in s.log
    && match p
       case Fetched(_) => true
       case SawDeployment(_, seen) => seen.Some? ==> DeploymentAt(key, seen.value) in s.log
       case DeploymentDone(md, d) => Holds(s, key, md, d)
       case SawService(md, d, seen) => Holds(s, key, md, d) && (seen.Some? ==> ServiceAt(key, seen.value) in s.log)
       case HasReport(md, status, report) =>
         && Updates(md.value, status, report)
         && ActiveSound(s, key, status)
         && (report.available.status == Yes ==> Served(s, key, md.value.spec.model, md.value.spec.version))
  }

  ghost predicate Inv(s: State) {
    LogSound(s) && forall k :: k in s.passes ==> PassSound(s, k, s.passes[k])
  }

  // ---------------------------------------------------------------- the log

  ghost predicate Grows(s: State, s': State) { s.log <= s'.log && s.revision <= s'.revision }

  lemma ServedStays(s: State, s': State, key: Key, model: string, version: string)
    requires Grows(s, s') && Served(s, key, model, version)
    ensures Served(s', key, model, version)
  {
  }

  lemma EntryStays(s: State, s': State, e: Entry)
    requires EntrySound(s, e) && Grows(s, s')
    ensures EntrySound(s', e)
  {
  }

  lemma PassStays(s: State, s': State, key: Key, p: Progress)
    requires PassSound(s, key, p) && Grows(s, s')
    ensures PassSound(s', key, p)
  {
    hide Updates, ServedBy, RenderedSpec;
    match p {
      case DeploymentDone(md, d) => HoldsStays(s, s', key, md, d);
      case SawService(md, d, _) => HoldsStays(s, s', key, md, d);
      case _ =>
    }
  }

  lemma HoldsStays(s: State, s': State, key: Key, md: Versioned<ModelDeployment>, d: Versioned<Deployment>)
    requires Holds(s, key, md, d) && Grows(s, s')
    ensures Holds(s', key, md, d)
  {
  }

  /** Storing one new sound object keeps the log sound. */
  lemma LogStays(s: State, s': State, added: Entry)
    requires LogSound(s) && s'.log == s.log + {added} && s'.revision == s.revision + 1
    requires added.Revision() == s.revision && EntrySound(s', added) && Current(s')
    ensures LogSound(s')
  {
    hide EntrySound, Current;
    forall e | e in s'.log ensures EntrySound(s', e) {
      if e in s.log { EntryStays(s, s', e); }
    }
    forall e, f | e in s'.log && f in s'.log && e.Revision() == f.Revision() ensures e == f {
      if e in s.log { RevisionBound(s, e); }
      if f in s.log { RevisionBound(s, f); }
    }
  }

  lemma RevisionBound(s: State, e: Entry)
    requires EntrySound(s, e)
    ensures e.Revision() < s.revision
  {
  }

  lemma PutDeploymentSound(s: State, key: Key, d: Deployment)
    requires LogSound(s) && ControllerRuns.Sane(d)
    ensures LogSound(PutDeployment(s, key, d)) && Grows(s, PutDeployment(s, key, d))
  {
    var s' := PutDeployment(s, key, d);
    LogStays(s, s', DeploymentAt(key, s'.deployments[key]));
  }

  lemma PutServiceSound(s: State, key: Key, service: Service)
    requires LogSound(s)
    ensures LogSound(PutService(s, key, service)) && Grows(s, PutService(s, key, service))
  {
    var s' := PutService(s, key, service);
    LogStays(s, s', ServiceAt(key, s'.services[key]));
  }

  lemma PutModelSound(s: State, key: Key, md: ModelDeployment)
    requires LogSound(s) && ControllerRuns.StatusSane(md) && ActiveSound(s, key, md.status)
    requires AvailableSound(s, key, md)
    ensures LogSound(PutModel(s, key, md)) && Grows(s, PutModel(s, key, md))
  {
    hide ControllerRuns.StatusSane, ServedBy, SaysAvailable;
    var s' := PutModel(s, key, md);
    LogStays(s, s', ModelAt(key, s'.models[key]));
  }

  /** Dropping or moving things that are not logged keeps the log sound. */
  lemma SameLog(s: State, s': State)
    requires LogSound(s) && s'.log == s.log && s'.revision == s.revision
    requires forall k :: k in s'.models ==> k in s.models && s'.models[k] == s.models[k]
    requires forall k :: k in s'.deployments ==> k in s.deployments && s'.deployments[k] == s.deployments[k]
    requires forall k :: k in s'.services ==> k in s.services && s'.services[k] == s.services[k]
    ensures LogSound(s') && Grows(s, s')
  {
    forall e | e in s'.log ensures EntrySound(s', e) { EntryStays(s, s', e); }
  }

  /** The revision check: what is stored at the revision that was read is what was read. */
  lemma SameRevisionSameObject(s: State, key: Key)
    requires LogSound(s)
    ensures forall md :: ModelAt(key, md) in s.log && Unchanged(Get(s.models, key), Some(md)) ==>
              key in s.models && s.models[key] == md
    ensures forall d :: DeploymentAt(key, d) in s.log && Unchanged(Get(s.deployments, key), Some(d)) ==>
              key in s.deployments && s.deployments[key] == d
    ensures forall x :: ServiceAt(key, x) in s.log && Unchanged(Get(s.services, key), Some(x)) ==>
              key in s.services && s.services[key] == x
  {
    hide EntrySound;
    forall md | ModelAt(key, md) in s.log && Unchanged(Get(s.models, key), Some(md))
      ensures key in s.models && s.models[key] == md
    {
      assert ModelAt(key, s.models[key]).Revision() == ModelAt(key, md).Revision();
    }
    forall d | DeploymentAt(key, d) in s.log && Unchanged(Get(s.deployments, key), Some(d))
      ensures key in s.deployments && s.deployments[key] == d
    {
      assert DeploymentAt(key, s.deployments[key]).Revision() == DeploymentAt(key, d).Revision();
    }
    forall x | ServiceAt(key, x) in s.log && Unchanged(Get(s.services, key), Some(x))
      ensures key in s.services && s.services[key] == x
    {
      assert ServiceAt(key, s.services[key]).Revision() == ServiceAt(key, x).Revision();
    }
  }

  // ---------------------------------------------------------------- the steps of a pass

  /** What a plan means for the object it is about. */
  lemma PlanMeans(key: Key, md: ModelDeployment, seen: Option<Deployment>)
    ensures var plan := PlanDeployment(key, md, seen);
      && (plan.Leave? ==> seen == Some(plan.current) && DeploymentSettled(plan.current, key, md))
      && (plan.Write? ==>
            && (seen.Some? ==> !NotMine(seen.value.owners, OwnerOf(key, md)))
            && DeploymentSettled(AcceptedDeployment(seen, plan.wanted), key, md)
            && ((seen.Some? ==> ControllerRuns.Sane(seen.value)) ==>
                  ControllerRuns.Sane(AcceptedDeployment(seen, plan.wanted))))
      && (plan.Refuse? <==> seen.Some? && NotMine(seen.value.owners, OwnerOf(key, md)))
  {
    hide ChildLabels, RenderedSpec, Claim, NotMine;
    ClaimExactly(seen.Some?, (if seen.Some? then seen.value else EmptyDeployment).owners, OwnerOf(key, md));
  }

  lemma ServicePlanMeans(key: Key, md: ModelDeployment, seen: Option<Service>, granted: string)
    ensures var plan := PlanService(key, md, seen);
      && (plan.Write? ==>
            && (seen.Some? ==> !NotMine(seen.value.owners, OwnerOf(key, md)))
            && ServiceSettled(AcceptedService(seen, plan.wanted, granted), key, md)
            && (seen.Some? ==> AcceptedService(seen, plan.wanted, granted).granted == seen.value.granted))
      && (plan.Refuse? <==> seen.Some? && NotMine(seen.value.owners, OwnerOf(key, md)))
  {
    hide ChildLabels, Claim, NotMine;
    ClaimExactly(seen.Some?, (if seen.Some? then seen.value else EmptyService).owners, OwnerOf(key, md));
  }

  /** Reports that credit nothing. */
  lemma ReportSound(s: State, key: Key, md: Versioned<ModelDeployment>, report: Report, now: int)
    requires LogSound(s) && ModelAt(key, md) in s.log && report.Consistent() && report.available.status != Yes
    ensures PassSound(s, key, HasReport(md, Reporting(md.value, report, now), report))
  {
    hide Updates, Reported, Served, ControllerRuns.StatusSane;
    ReportingUpdates(md.value, report, now);
    assert EntrySound(s, ModelAt(key, md));
  }

  lemma FailingSound(s: State, key: Key, md: Versioned<ModelDeployment>, reason: string, error: ChildError, now: int)
    requires LogSound(s) && ModelAt(key, md) in s.log
    ensures PassSound(s, key, Failing(md, reason, error, now))
  {
    hide LogSound, PassSound;
    ReportsConsistent(EmptyModel, reason, error, EmptyDeployment, 0);
    ReportSound(s, key, md, ErrorReport(reason, error), now);
  }

  lemma ReadFailedSound(s: State, key: Key, p: Progress, now: int)
    requires LogSound(s) && ModelAt(key, p.md) in s.log
    ensures PassSound(s, key, ReadFailed(p, now))
  {
    hide LogSound, PassSound;
    FailingSound(s, key, p.md, "DeploymentReconcileFailed", ServerError, now);
    FailingSound(s, key, p.md, "ServiceReconcileFailed", ServerError, now);
  }

  /** The report on an observed Deployment credits it only if it is rolled out. */
  lemma ObservingSound(s: State, key: Key, md: Versioned<ModelDeployment>, d: Versioned<Deployment>, now: int)
    requires LogSound(s) && ModelAt(key, md) in s.log && Holds(s, key, md, d)
    ensures PassSound(s, key, Observing(key, md, d.value, now))
  {
    hide Updates, ObservedStatus, ObservedReport, RolledOut, ControllerRuns.StatusSane, AvailableSound;
    hide ChildLabels, EffectiveResources;
    ObservedUpdates(key, md.value, d.value, now);
    ControllerRuns.ObservedActive(key, md.value, d.value, now);
    assert EntrySound(s, ModelAt(key, md));
    if RolledOut(d.value, DesiredReplicas(md.value.spec)) {
      ControllerRuns.RenderedServes(d.value, key, md.value.spec);
      assert ServedBy(DeploymentAt(key, d), key, md.value.spec.model, md.value.spec.version);
    }
  }

  lemma BegunSound(s: State, key: Key, md: Versioned<ModelDeployment>, order: Order, now: int)
    requires LogSound(s) && ModelAt(key, md) in s.log && OrderOf(order, md.value.spec.resources)
    ensures PassSound(s, key, Begun(md, order, now))
  {
    hide Validate, LogSound, OrderOf, Reporting, Updates, ActiveSound;
    var error := Validate(md.value.spec, order);
    if error.Some? {
      ReportsConsistent(error.value, "", ServerError, EmptyDeployment, 0);
      ReportSound(s, key, md, InvalidReport(error.value), now);
    }
  }

  lemma StoreDeploymentSound(s: State, key: Key, p: Progress, fault: Fault)
    requires LogSound(s) && p.SawDeployment? && PassSound(s, key, p)
    ensures LogSound(StoreDeployment(s, key, p, fault)) && Grows(s, StoreDeployment(s, key, p, fault))
  {
    hide PlanDeployment, LogSound, AcceptedDeployment, DeploymentSettled, NotMine, ControllerRuns.Sane;
    var seen := Value(p.seenDeployment);
    PlanMeans(key, p.md.value, seen);
    if p.seenDeployment.Some? { LoggedSane(s, DeploymentAt(key, p.seenDeployment.value)); }
    if StoresDeployment(s, key, p, fault) {
      PutDeploymentSound(s, key, AcceptedDeployment(seen, PlanDeployment(key, p.md.value, seen).wanted));
    }
  }

  /** The Deployment a pass goes on with is as asked and was stored. */
  lemma SettledDeploymentSound(s: State, key: Key, p: Progress, fault: Fault, now: int)
    requires LogSound(s) && p.SawDeployment? && PassSound(s, key, p)
    ensures PassSound(StoreDeployment(s, key, p, fault), key, SettledDeployment(s, key, p, fault, now))
  {
    hide PlanDeployment, LogSound, Failing, AcceptedDeployment, DeploymentSettled, NotMine, RenderedSpec;
    hide ControllerRuns.Sane;
    var s' := StoreDeployment(s, key, p, fault);
    var seen := Value(p.seenDeployment);
    var plan := PlanDeployment(key, p.md.value, seen);
    PlanMeans(key, p.md.value, seen);
    StoreDeploymentSound(s, key, p, fault);
    FailingSound(s', key, p.md, "DeploymentReconcileFailed", if plan.Refuse? then plan.error else ServerError, now);
    if plan.Leave? {
      SettledRenders(plan.current, key, p.md.value);
    } else if StoresDeployment(s, key, p, fault) {
      SettledRenders(AcceptedDeployment(seen, plan.wanted), key, p.md.value);
      assert DeploymentAt(key, Versioned(AcceptedDeployment(seen, plan.wanted), s.revision)) in s'.log;
    }
  }

  lemma LoggedSane(s: State, e: Entry)
    requires LogSound(s) && e in s.log && e.DeploymentAt?
    ensures ControllerRuns.Sane(e.deployment.value)
  {
  }

  lemma SettledRenders(d: Deployment, key: Key, md: ModelDeployment)
    requires DeploymentSettled(d, key, md)
    ensures d.spec == RenderedSpec(key, md.spec)
  {
  }

  lemma StoreServiceSound(s: State, key: Key, p: Progress, fault: Fault, granted: string)
    requires LogSound(s) && p.SawService?
    ensures LogSound(StoreService(s, key, p, fault, granted)) && Grows(s, StoreService(s, key, p, fault, granted))
  {
    hide PlanService, LogSound, AcceptedService;
    if StoresService(s, key, p, fault) {
      var seen := Value(p.seenService);
      PutServiceSound(s, key, AcceptedService(seen, PlanService(key, p.md.value, seen).wanted, granted));
    }
  }

  lemma SettledServiceSound(s: State, key: Key, p: Progress, fault: Fault, granted: string, now: int)
    requires LogSound(s) && p.SawService? && PassSound(s, key, p)
    ensures PassSound(StoreService(s, key, p, fault, granted), key, SettledService(s, key, p, fault, now))
  {
    hide PlanService, LogSound, Failing, Observing, AcceptedService, Holds, StoreService, StoresService;
    var s' := StoreService(s, key, p, fault, granted);
    StoreServiceSound(s, key, p, fault, granted);
    HoldsStays(s, s', key, p.md, p.d);
    var plan := PlanService(key, p.md.value, Value(p.seenService));
    FailingSound(s', key, p.md, "ServiceReconcileFailed", if plan.Refuse? then plan.error else ServerError, now);
    ObservingSound(s', key, p.md, p.d, now);
  }

  lemma WriteStatusSound(s: State, key: Key, p: Progress, fault: Fault)
    requires LogSound(s) && p.HasReport? && PassSound(s, key, p)
    ensures var s' := ApplyWriteStatus(s, key, p, fault); LogSound(s') && Grows(s, s')
  {
    hide LogSound, Served, Find, Keyed;
    var done := s.(passes := s.passes - {key});
    SameLog(s, done);
    var md := p.md.value.(status := p.status);
    LoggedModel(s, ModelAt(key, p.md));
    UpdatesCoherent(p.md.value, p.status, p.report);
    ActiveStays(s, done, key, p.status);
    if SaysAvailable(p.status) { ServedStays(s, done, key, md.spec.model, md.spec.version); }
    PutModelSound(done, key, md);
  }

  lemma LoggedModel(s: State, e: Entry)
    requires LogSound(s) && e in s.log && e.ModelAt?
    ensures ControllerRuns.StatusSane(e.model.value)
    ensures ActiveSound(s, e.key, e.model.value.status) && AvailableSound(s, e.key, e.model.value)
  {
    assert EntrySound(s, e);
  }

  lemma ActiveStays(s: State, s': State, key: Key, status: ModelStatus)
    requires ActiveSound(s, key, status) && Grows(s, s')
    ensures ActiveSound(s', key, status)
  {
  }

  // ---------------------------------------------------------------- every step

  lemma ModelEditSound(s: State, e: Event)
    requires LogSound(s) && Enabled(s, e) && (e.CreateModel? || e.ChangeSpec? || e.MarkDeleted?)
    ensures LogSound(Apply(s, e)) && Grows(s, Apply(s, e))
  {
    hide LogSound, Served, Coherent, Keyed, Find;
    if e.CreateModel? {
      BlankKeyed();
      PutModelSound(s, e.key, ModelDeployment(e.uid, 1, false, e.spec, BlankStatus));
    } else {
      LoggedCurrent(s, e.key);
      LoggedModel(s, ModelAt(e.key, s.models[e.key]));
      if e.ChangeSpec? {
        var was := s.models[e.key].value;
        PutModelSound(s, e.key, was.(spec := e.spec, generation := was.generation + 1));
      } else {
        PutModelSound(s, e.key, s.models[e.key].value.(deleting := true));
      }
    }
  }

  lemma BlankKeyed()
    ensures Keyed(BlankStatus.conditions)
  {
  }

  lemma LoggedCurrent(s: State, key: Key)
    requires LogSound(s)
    ensures key in s.models ==> ModelAt(key, s.models[key]) in s.log
    ensures key in s.deployments ==> DeploymentAt(key, s.deployments[key]) in s.log
    ensures key in s.services ==> ServiceAt(key, s.services[key]) in s.log
  {
  }

  lemma ChildEditSound(s: State, e: Event)
    requires LogSound(s) && Enabled(s, e) && (e.ReportRollout? || e.EditDeployment? || e.EditService?)
    ensures LogSound(Apply(s, e)) && Grows(s, Apply(s, e))
  {
    hide LogSound;
    LoggedCurrent(s, e.key);
    if e.key in s.deployments { LoggedSane(s, DeploymentAt(e.key, s.deployments[e.key])); }
    match e {
      case ReportRollout(key, rollout) => PutDeploymentSound(s, key, s.deployments[key].value.(status := rollout));
      case EditDeployment(key, owners, labels, edited) =>
        var wanted := Deployment(owners, labels, 0, edited, NewDeploymentStatus);
        PutDeploymentSound(s, key, AcceptedDeployment(Value(Get(s.deployments, key)), wanted));
      case EditService(key, service) => PutServiceSound(s, key, service);
    }
  }

  /** The events that take a pass to its next stage. */
  predicate Advances(e: Event) {
    e.Begin? || e.ReadDeployment? || e.SettleDeployment? || e.ReadService? || e.SettleService? || e.FailRead?
  }

  ghost function Stored(s: State, e: Event): State
    requires Enabled(s, e) && Advances(e)
  {
    match e
    case SettleDeployment(key, fault, _) => StoreDeployment(s, key, s.passes[key], fault)
    case SettleService(key, fault, granted, _) => StoreService(s, key, s.passes[key], fault, granted)
    case _ => s
  }

  ghost function Advanced(s: State, e: Event): Progress
    requires Enabled(s, e) && Advances(e)
  {
    match e
    case Begin(_, cached, order, now) => Begun(cached, order, now)
    case ReadDeployment(key, cached) => SawDeployment(s.passes[key].md, cached)
    case SettleDeployment(key, fault, now) => SettledDeployment(s, key, s.passes[key], fault, now)
    case ReadService(key, cached) => SawService(s.passes[key].md, s.passes[key].d, cached)
    case SettleService(key, fault, _, now) => SettledService(s, key, s.passes[key], fault, now)
    case FailRead(key, now) => ReadFailed(s.passes[key], now)
  }

  lemma AdvanceIs(s: State, e: Event)
    requires Enabled(s, e) && Advances(e)
    ensures Apply(s, e) == Move(Stored(s, e), e.key, Advanced(s, e)) && Stored(s, e).passes == s.passes
  {
    hide StoresDeployment, StoresService, SettledDeployment, SettledService, Begun, PlanDeployment, PlanService;
    hide AcceptedDeployment, AcceptedService;
  }

  lemma StoredSound(s: State, e: Event)
    requires Inv(s) && Enabled(s, e) && Advances(e)
    ensures LogSound(Stored(s, e)) && Grows(s, Stored(s, e))
  {
    hide LogSound, StoreDeployment, StoreService, PassSound, OrderOf;
    match e {
      case SettleDeployment(key, fault, _) => StoreDeploymentSound(s, key, s.passes[key], fault);
      case SettleService(key, fault, granted, _) => StoreServiceSound(s, key, s.passes[key], fault, granted);
      case _ =>
    }
  }

  lemma AdvancedSound(s: State, e: Event)
    requires Inv(s) && Enabled(s, e) && Advances(e)
    ensures PassSound(Stored(s, e), e.key, Advanced(s, e))
  {
    hide LogSound, StoreDeployment, StoreService, SettledDeployment, SettledService, Begun, OrderOf, ReadFailed;
    hide Holds, Updates, ActiveSound, Served;
    if e.Begin? {
      BegunSound(s, e.key, e.cached, e.order, e.now);
    } else {
      assert PassSound(s, e.key, s.passes[e.key]);
      if e.SettleDeployment? {
        SettledDeploymentSound(s, e.key, s.passes[e.key], e.fault, e.now);
      } else if e.SettleService? {
        SettledServiceSound(s, e.key, s.passes[e.key], e.fault, e.granted, e.now);
      } else if e.FailRead? {
        ReadFailedSound(s, e.key, s.passes[e.key], e.now);
      }
    }
  }

  lemma AdvanceSound(s: State, e: Event)
    requires Inv(s) && Enabled(s, e) && Advances(e)
    ensures LogSound(Apply(s, e)) && Grows(s, Apply(s, e)) && PassSound(Apply(s, e), e.key, Advanced(s, e))
  {
    hide LogSound, Stored, Advanced, PassSound, Apply, Enabled;
    AdvanceIs(s, e);
    StoredSound(s, e);
    AdvancedSound(s, e);
    SameLog(Stored(s, e), Apply(s, e));
    PassStays(Stored(s, e), Apply(s, e), e.key, Advanced(s, e));
  }

  lemma StepLog(s: State, e: Event, s': State)
    requires Inv(s) && Next(s, e, s')
    ensures LogSound(s') && Grows(s, s')
  {
    hide LogSound, Begun, StoreDeployment, SettledDeployment, StoreService, SettledService, ApplyWriteStatus;
    hide PassSound, OrderOf;
    match e {
      case WriteStatus(key, fault) => WriteStatusSound(s, key, s.passes[key], fault);
      case GiveUp(key) => SameLog(s, s');
      case CreateModel(_, _, _) => ModelEditSound(s, e);
      case ChangeSpec(_, _) => ModelEditSound(s, e);
      case MarkDeleted(_) => ModelEditSound(s, e);
      case RemoveModel(_) => SameLog(s, s');
      case ReportRollout(_, _) => ChildEditSound(s, e);
      case EditDeployment(_, _, _, _) => ChildEditSound(s, e);
      case EditService(_, _) => ChildEditSound(s, e);
      case RemoveDeployment(_) => SameLog(s, s');
      case RemoveService(_) => SameLog(s, s');
      case _ => AdvanceSound(s, e);
    }
  }

  /** A step changes at most the pass of its own key. */
  lemma StepPasses(s: State, e: Event, k: Key)
    requires Enabled(s, e) && k in Apply(s, e).passes
    ensures if Advances(e) && k == e.key then Apply(s, e).passes[k] == Advanced(s, e)
            else k in s.passes && Apply(s, e).passes[k] == s.passes[k]
  {
    hide StoreDeployment, StoreService, Begun, SettledDeployment, SettledService, OrderOf, Advanced;
    if Advances(e) { AdvanceIs(s, e); }
  }

  lemma StepInv(s: State, e: Event, s': State)
    requires Inv(s) && Next(s, e, s')
    ensures Inv(s')
  {
    hide Apply, LogSound, PassSound, Enabled, Advanced, Advances;
    StepLog(s, e, s');
    forall k | k in s'.passes ensures PassSound(s', k, s'.passes[k]) {
      StepPasses(s, e, k);
      if Advances(e) && k == e.key {
        AdvanceSound(s, e);
      } else {
        PassStays(s, s', k, s.passes[k]);
      }
    }
  }

  lemma {:induction false} RunInv(states: seq<State>, events: seq<Event>, n: nat)
    requires IsRun(states, events) && states[0] == Start && n < |states|
    ensures Inv(states[n])
  {
    hide Apply, Enabled;
    if n > 0 {
      RunInv(states, events, n - 1);
      assert Next(states[n - 1], events[n - 1], states[n]);
      StepInv(states[n - 1], events[n - 1], states[n]);
    }
  }

  // ---------------------------------------------------------------- the theorems

  ghost predicate IsStored(s: State, e: Entry) {
    match e
    case ModelAt(key, md) => Get(s.models, key) == Some(md)
    case DeploymentAt(key, d) => Get(s.deployments, key) == Some(d)
    case ServiceAt(key, service) => Get(s.services, key) == Some(service)
  }

  /** The log records only what the cluster held. */
  lemma {:induction false} LoggedWasStored(states: seq<State>, events: seq<Event>, n: nat, e: Entry) returns (i: nat)
    requires IsRun(states, events) && states[0] == Start && n < |states| && e in states[n].log
    ensures i <= n && IsStored(states[i], e)
  {
    hide Apply, Enabled;
    assert n > 0;
    if e in states[n - 1].log {
      i := LoggedWasStored(states, events, n - 1, e);
    } else {
      assert Next(states[n - 1], events[n - 1], states[n]);
      NewIsStored(states[n - 1], events[n - 1], e);
      i := n;
    }
  }

  lemma NewIsStored(s: State, e: Event, added: Entry)
    requires Enabled(s, e) && added in Apply(s, e).log && added !in s.log
    ensures IsStored(Apply(s, e), added)
  {
    hide PlanDeployment, PlanService, Begun, SettledDeployment, SettledService, AcceptedDeployment, AcceptedService;
    hide OrderOf;
  }

  /** Some earlier cluster had this version of the model fully rolled out. */
  ghost predicate WasServed(states: seq<State>, n: nat, key: Key, model: string, version: string)
    requires n < |states|
  {
    exists i :: 0 <= i <= n && ServedAt(states[i], key, model, version)
  }

  ghost predicate ServedAt(s: State, key: Key, model: string, version: string) {
    key in s.deployments && ControllerRuns.Serves(s.deployments[key].value, model, version)
  }

  lemma ServedWasServed(states: seq<State>, events: seq<Event>, n: nat, key: Key, model: string, version: string)
    requires IsRun(states, events) && states[0] == Start && n < |states| && Served(states[n], key, model, version)
    ensures WasServed(states, n, key, model, version)
  {
    hide Apply, Enabled, ControllerRuns.Serves;
    var e :| e in states[n].log && ServedBy(e, key, model, version);
    var i := LoggedWasStored(states, events, n, e);
    assert ServedAt(states[i], key, model, version);
  }

  /**
    Under every interleaving and with cached reads, nothing is shown that never was: a
    model shown as available at its current generation has had exactly this version
    fully rolled out at some time, and so has whatever is shown as active; and every
    status is coherent.  `Readiness` says from which pass it comes and how current it is.
  */
  lemma ShownWasServed(states: seq<State>, events: seq<Event>, n: nat, key: Key)
    requires IsRun(states, events) && states[0] == Start && n < |states| && key in states[n].models
    ensures var md := states[n].models[key].value;
      && ControllerRuns.StatusSane(md)
      && (md.status.observedGeneration == md.generation && SaysAvailable(md.status) ==>
            WasServed(states, n, key, md.spec.model, md.spec.version))
      && ((md.status.activeModel == "" && md.status.activeVersion == "")
          || WasServed(states, n, key, md.status.activeModel, md.status.activeVersion))
  {
    hide Apply, Enabled, LogSound, PassSound, ControllerRuns.StatusSane, Served, SaysAvailable, WasServed;
    RunInv(states, events, n);
    LoggedCurrent(states[n], key);
    var md := states[n].models[key].value;
    LoggedModel(states[n], ModelAt(key, states[n].models[key]));
    if md.status.observedGeneration == md.generation && SaysAvailable(md.status) {
      ServedWasServed(states, events, n, key, md.spec.model, md.spec.version);
    }
    if md.status.activeModel != "" || md.status.activeVersion != "" {
      ServedWasServed(states, events, n, key, md.status.activeModel, md.status.activeVersion);
    }
  }

  /** A write of the Deployment named key on behalf of md: the one overwritten is missing or its own. */
  ghost predicate OwnDeploymentWrite(s: State, s': State, key: Key, md: ModelDeployment) {
    && key in s'.deployments && s'.deployments == s.deployments[key := s'.deployments[key]]
    && (key in s.deployments ==> !NotMine(s.deployments[key].value.owners, OwnerOf(key, md)))
    && DeploymentSettled(s'.deployments[key].value, key, md)
  }

  ghost predicate OwnServiceWrite(s: State, s': State, key: Key, md: ModelDeployment) {
    && key in s'.services && s'.services == s.services[key := s'.services[key]]
    && (key in s.services ==> !NotMine(s.services[key].value.owners, OwnerOf(key, md)))
    && (key in s.services ==> s'.services[key].value.granted == s.services[key].value.granted)
    && ServiceSettled(s'.services[key].value, key, md)
  }

  lemma StoreDeploymentOwn(s: State, key: Key, p: Progress, fault: Fault)
    requires LogSound(s) && p.SawDeployment? && PassSound(s, key, p)
    ensures var s' := StoreDeployment(s, key, p, fault);
      && s'.models == s.models && s'.services == s.services
      && (s'.deployments == s.deployments || OwnDeploymentWrite(s, s', key, p.md.value))
  {
    hide PlanDeployment, AcceptedDeployment, DeploymentSettled, NotMine, LogSound;
    PlanMeans(key, p.md.value, Value(p.seenDeployment));
    SameRevisionSameObject(s, key);
  }

  lemma StoreServiceOwn(s: State, key: Key, p: Progress, fault: Fault, granted: string)
    requires LogSound(s) && p.SawService? && PassSound(s, key, p)
    ensures var s' := StoreService(s, key, p, fault, granted);
      && s'.models == s.models && s'.deployments == s.deployments
      && (s'.services == s.services || OwnServiceWrite(s, s', key, p.md.value))
  {
    hide PlanService, AcceptedService, ServiceSettled, NotMine, LogSound, Holds;
    ServicePlanMeans(key, p.md.value, Value(p.seenService), granted);
    SameRevisionSameObject(s, key);
  }

  /** A status write changes the status of the very object that was read, and nothing else. */
  lemma StatusWriteOwn(s: State, key: Key, p: Progress, fault: Fault)
    requires LogSound(s) && p.HasReport? && PassSound(s, key, p)
    ensures var s' := ApplyWriteStatus(s, key, p, fault);
      && s'.deployments == s.deployments && s'.services == s.services
      && (s'.models == s.models
          || (&& key in s.models && s.models[key] == p.md
              && s'.models == s.models[key := Versioned(p.md.value.(status := p.status), s.revision)]))
  {
    hide LogSound, Updates, ActiveSound, Served;
    SameRevisionSameObject(s, key);
  }

  /** What one step of the controller may do to the cluster. */
  ghost predicate ControllerEffect(s: State, e: Event, s': State) {
    && (s'.deployments == s.deployments
        || (e.SettleDeployment? && e.key in s.passes && OwnDeploymentWrite(s, s', e.key, s.passes[e.key].md.value)))
    && (s'.services == s.services
        || (e.SettleService? && e.key in s.passes && OwnServiceWrite(s, s', e.key, s.passes[e.key].md.value)))
    && (s'.models == s.models
        || (&& e.WriteStatus? && e.key in s.passes && s.passes[e.key].HasReport? && e.key in s.models
            && s.models[e.key] == s.passes[e.key].md
            && s'.models == s.models[e.key := Versioned(s.models[e.key].value.(status := s.passes[e.key].status),
                s.revision)]))
  }

  /**
    Foreign-object safety under every interleaving: whatever the controller read, and
    however old it was, the child it overwrites is at that moment missing or its own,
    and nothing but that child, or the status of the model it read, is written.
  */
  lemma WritesOnlyItsOwn(states: seq<State>, events: seq<Event>, n: nat)
    requires IsRun(states, events) && states[0] == Start && n < |events|
    requires Advances(events[n]) || events[n].WriteStatus? || events[n].GiveUp?
    ensures ControllerEffect(states[n], events[n], states[n + 1])
  {
    hide StoreDeployment, StoreService, Begun, SettledDeployment, SettledService, OrderOf, LogSound, PassSound;
    hide ApplyWriteStatus;
    hide NotMine, DeploymentSettled, ServiceSettled;
    RunInv(states, events, n);
    var s, e := states[n], events[n];
    assert Next(s, e, states[n + 1]);
    match e {
      case SettleDeployment(key, fault, _) => StoreDeploymentOwn(s, key, s.passes[key], fault);
      case SettleService(key, fault, granted, _) => StoreServiceOwn(s, key, s.passes[key], fault, granted);
      case WriteStatus(key, fault) => StatusWriteOwn(s, key, s.passes[key], fault);
      case _ =>
    }
  }
}
