/**
  The control API: registering immutable model versions, deploying them and
  rolling back.  Every request is a session that awaits the database or the
  Kubernetes API between its steps, so any other session, and any other writer
  of a ModelDeployment, can act in between.
*/
module ControlPlane {
  import opened Redis
  import opened JobIdentity
  import opened Metadata

  // ---------------------------------------------------------------- stored data

  datatype VersionKey = VersionKey(model: string, version: string)

  /** The content of a registered version. */
  datatype Content = Content(image: string, digest: Option<string>, metadata: map<string, Json>)

  /** Whether a registration repeats what is stored. */
  predicate Matches(stored: Content, body: Content) {
    stored.image == body.image && stored.digest == body.digest && Equal(Object(stored.metadata), Object(body.metadata))
  }

  datatype Key = Key(namespace: string, name: string)

  datatype Needs = Needs(requests: map<string, string>, limits: map<string, string>)

  const NoNeeds := Needs(map[], map[])

  /** What a client asks for. */
  datatype Desired = Desired(model: string, version: string, replicas: int, port: int, needs: Needs)

  /** A stored ModelDeployment spec; other writers may leave fields out. */
  datatype Spec = Spec(
    model: Option<string>,
    version: Option<string>,
    image: Option<string>,
    port: Option<int>,
    replicas: Option<int>,
    needs: Option<Needs>)

  datatype Writer = Api | Other

  datatype Resource = Resource(spec: Spec, digest: Option<string>, revision: nat, writer: Writer)

  /** What the API sends to the cluster. */
  datatype Draft = Draft(spec: Spec, digest: Option<string>, precondition: Option<nat>)

  // ---------------------------------------------------------------- sessions

  /** An HTTP status, or a session cut short by a failing dependency. */
  datatype Answer = Answer(code: int) | Aborted

  datatype VersionStage = CheckModel | FindVersion | Commit | FindAgain | VersionAnswered(answer: Answer)
  datatype DeployStage = FindImage | Send(draft: Draft) | DeployAnswered(answer: Answer)
  datatype RollbackStage =
    | Fetch
    | FindTarget(current: Resource)
    | SendBack(current: Resource, draft: Draft)
    | RollbackAnswered(answer: Answer)

  datatype Session =
    | PutVersion(key: VersionKey, body: Content, version: VersionStage)
    | PutDeployment(at: Key, desired: Desired, deploy: DeployStage)
    | Rollback(at: Key, target: string, rollback: RollbackStage)

  type SessionId = nat

  datatype State = State(
    models: set<string>,
    versions: map<VersionKey, Content>,
    resources: map<Key, Resource>,
    revision: nat,                    // larger than every revision handed out
    sessions: map<SessionId, Session>)

  datatype Event =
    | Begin(sid: SessionId, session: Session)
    | Advance(sid: SessionId)
    | Abort(sid: SessionId, applied: bool)  // a dependency fails, before or after the pending call took effect
    | AddModel(name: string)
    | OtherWrite(at: Key, spec: Spec, digest: Option<string>)  // any other writer
    | Touch(at: Key)  // a status or metadata write
    | Delete(at: Key)

  predicate Fresh(session: Session) {
    match session
    case PutVersion(_, _, stage) => stage == CheckModel
    case PutDeployment(_, _, stage) => stage == FindImage
    case Rollback(_, _, stage) => stage == Fetch
  }

  predicate Done(session: Session) {
    match session
    case PutVersion(_, _, stage) => stage.VersionAnswered?
    case PutDeployment(_, _, stage) => stage.DeployAnswered?
    case Rollback(_, _, stage) => stage.RollbackAnswered?
  }

  function Closed(session: Session, answer: Answer): Session {
    match session
    case PutVersion(_, _, _) => session.(version := VersionAnswered(answer))
    case PutDeployment(_, _, _) => session.(deploy := DeployAnswered(answer))
    case Rollback(_, _, _) => session.(rollback := RollbackAnswered(answer))
  }

  // ---------------------------------------------------------------- rendering and reading

  function Render(desired: Desired, content: Content, precondition: Option<nat>): Draft {
    Draft(
      Spec(Some(desired.model), Some(desired.version), Some(content.image), Some(desired.port),
           Some(desired.replicas), Some(desired.needs)),
      content.digest,
      precondition)
  }

  datatype SpecRead = SpecRead(model: string, version: string, image: string, replicas: int, port: int, needs: Needs)

  function GetOr<T>(o: Option<T>, default: T): T { if o.Some? then o.value else default }

  /** A resource as the API shows it; a missing identity or image is an error. */
  function ReadSpec(spec: Spec): Option<SpecRead> {
    if spec.model.None? || spec.version.None? || spec.image.None? then None
    else Some(SpecRead(spec.model.value, spec.version.value, spec.image.value,
                       GetOr(spec.replicas, 1), GetOr(spec.port, 8080), GetOr(spec.needs, NoNeeds)))
  }

  /** The spec a rollback asks for: what is stored, with defaults filled in, at another version. */
  function RolledBack(spec: Spec, target: string): Option<Desired> {
    if spec.model.None? then None
    else
      var desired := Desired(spec.model.value, target, GetOr(spec.replicas, 1), GetOr(spec.port, 8080),
                             GetOr(spec.needs, NoNeeds));
      if ResourceName(desired.model) && 1 <= desired.replicas <= 100 && 1 <= desired.port <= 65535 then Some(desired)
      else None
  }

  // ---------------------------------------------------------------- the cluster

  /** Server-side apply: a stale precondition conflicts; an unchanged object keeps its revision. */
  predicate Accepts(s: State, at: Key, draft: Draft) {
    draft.precondition.None? || (at in s.resources && s.resources[at].revision == draft.precondition.value)
  }

  function Stored(s: State, at: Key, draft: Draft): State {
    if at in s.resources && s.resources[at].spec == draft.spec && s.resources[at].digest == draft.digest
    then s.(resources := s.resources[at := s.resources[at].(writer := Api)])
    else s.(resources := s.resources[at := Resource(draft.spec, draft.digest, s.revision, Api)],
            revision := s.revision + 1)
  }

  // ---------------------------------------------------------------- one step of a session

  /** Registering a version: look for the model, look for the version, insert, look again after a lost race. */
  function NextVersion(s: State, key: VersionKey, body: Content, stage: VersionStage): VersionStage {
    match stage
    case CheckModel => if key.model in s.models then FindVersion else VersionAnswered(Answer(404))
    case FindVersion =>
      if key in s.versions then VersionAnswered(Answer(if Matches(s.versions[key], body) then 200 else 409)) else Commit
    case Commit => if Inserts(s, key) then VersionAnswered(Answer(201)) else FindAgain
    case FindAgain =>
      VersionAnswered(Answer(if key !in s.versions then 503 else if Matches(s.versions[key], body) then 200 else 409))
    case VersionAnswered(_) => stage
  }

  /** The unique constraint and the foreign key both surface as an integrity error. */
  predicate Inserts(s: State, key: VersionKey) { key !in s.versions && key.model in s.models }

  function NextDeploy(s: State, at: Key, desired: Desired, stage: DeployStage): DeployStage {
    match stage
    case FindImage =>
      var key := VersionKey(desired.model, desired.version);
      if key in s.versions then Send(Render(desired, s.versions[key], None)) else DeployAnswered(Answer(404))
    case Send(draft) => DeployAnswered(Answer(if Accepts(s, at, draft) then 200 else 409))
    case DeployAnswered(_) => stage
  }

  function NextRollback(s: State, at: Key, target: string, stage: RollbackStage): RollbackStage {
    match stage
    case Fetch =>
      if at !in s.resources then RollbackAnswered(Answer(404))
      else if s.resources[at].spec.model.None? then RollbackAnswered(Answer(502))
      else FindTarget(s.resources[at])
    case FindTarget(current) =>
      var key := VersionKey(GetOr(current.spec.model, ""), target);
      var desired := RolledBack(current.spec, target);
      if key !in s.versions then RollbackAnswered(Answer(404))
      else if desired.None? then RollbackAnswered(Answer(502))
      else SendBack(current, Render(desired.value, s.versions[key], Some(current.revision)))
    case SendBack(current, draft) => RollbackAnswered(Answer(if Accepts(s, at, draft) then 200 else 409))
    case RollbackAnswered(_) => stage
  }

  /** Where a session's step leads. */
  function Moved(s: State, session: Session): Session {
    match session
    case PutVersion(key, body, stage) => session.(version := NextVersion(s, key, body, stage))
    case PutDeployment(at, desired, stage) => session.(deploy := NextDeploy(s, at, desired, stage))
    case Rollback(at, target, stage) => session.(rollback := NextRollback(s, at, target, stage))
  }

  /** What a session's step does to the database and the cluster. */
  function Effect(s: State, session: Session): State {
    match session
    case PutVersion(key, body, stage) =>
      if stage == Commit && Inserts(s, key) then s.(versions := s.versions[key := body]) else s
    case PutDeployment(at, desired, stage) =>
      if stage.Send? && Accepts(s, at, stage.draft) then Stored(s, at, stage.draft) else s
    case Rollback(at, target, stage) =>
      if stage.SendBack? && Accepts(s, at, stage.draft) then Stored(s, at, stage.draft) else s
  }

  function Replace(s: State, sid: SessionId, session: Session): State {
    s.(sessions := s.sessions[sid := session])
  }

  predicate Enabled(s: State, e: Event) {
    match e
    case Begin(sid, session) => sid !in s.sessions && Fresh(session)
    case Advance(sid) => sid in s.sessions && !Done(s.sessions[sid])
    case Abort(sid, _) => sid in s.sessions && !Done(s.sessions[sid])
    case Touch(at) => at in s.resources
    case Delete(at) => at in s.resources
    case _ => true
  }

  function Apply(s: State, e: Event): State
    requires Enabled(s, e)
  {
    match e
    case Begin(sid, session) => Replace(s, sid, session)
    case Advance(sid) => Replace(Effect(s, s.sessions[sid]), sid, Moved(s, s.sessions[sid]))
    case Abort(sid, applied) =>
      Replace(if applied then Effect(s, s.sessions[sid]) else s, sid, Closed(s.sessions[sid], Aborted))
    case AddModel(name) => s.(models := s.models + {name})
    case OtherWrite(at, spec, digest) =>
      s.(resources := s.resources[at := Resource(spec, digest, s.revision, Other)], revision := s.revision + 1)
    case Touch(at) =>
      s.(resources := s.resources[at := s.resources[at].(revision := s.revision)], revision := s.revision + 1)
    case Delete(at) => s.(resources := s.resources - {at})
  }

  predicate Next(s: State, e: Event, s': State) { Enabled(s, e) && s' == Apply(s, e) }

  predicate IsRun(states: seq<State>, events: seq<Event>) {
    && |states| == |events| + 1
    && forall i {:trigger events[i]} :: 0 <= i < |events| ==> Next(states[i], events[i], states[i + 1])
  }

  const Empty := State({}, map[], map[], 0, map[])

  // ---------------------------------------------------------------- the invariant

  /** What a version session may rely on, and what its answer says about the registry. */
  ghost predicate VersionSound(s: State, session: Session)
    requires session.PutVersion?
  {
    var key, body := session.key, session.body;
    match session.version
    case CheckModel => true
    case FindVersion => key.model in s.models
    case Commit => key.model in s.models
    case FindAgain => key in s.versions
    case VersionAnswered(answer) =>
      answer.Answer? ==>
        && answer.code in {200, 201, 404, 409}
        && (answer.code == 201 ==> key in s.versions && s.versions[key] == body)
        && (answer.code == 200 ==> key in s.versions && Matches(s.versions[key], body))
        && (answer.code == 409 ==> key in s.versions && !Matches(s.versions[key], body))
  }

  /** A draft asks for a registered version with that version's image and digest. */
  ghost predicate DraftSound(s: State, spec: Spec, digest: Option<string>) {
    && spec.model.Some? && spec.version.Some?
    && VersionKey(spec.model.value, spec.version.value) in s.versions
    && var content := s.versions[VersionKey(spec.model.value, spec.version.value)];
       spec.image == Some(content.image) && digest == content.digest
  }

  /** A remembered resource is the stored one as long as the revision is the same. */
  ghost predicate SnapshotSound(s: State, at: Key, current: Resource) {
    && current.revision < s.revision
    && (at in s.resources && s.resources[at].revision == current.revision ==>
          s.resources[at].spec == current.spec && s.resources[at].digest == current.digest)
  }

  ghost predicate RollbackSound(s: State, session: Session)
    requires session.Rollback?
  {
    match session.rollback
    case Fetch => true
    case FindTarget(current) => SnapshotSound(s, session.at, current)
    case SendBack(current, draft) =>
      && SnapshotSound(s, session.at, current)
      && draft.precondition == Some(current.revision)
      && RolledBack(current.spec, session.target).Some?
      && DraftSound(s, draft.spec, draft.digest)
      && draft.spec == Render(RolledBack(current.spec, session.target).value,
                              s.versions[VersionKey(draft.spec.model.value, draft.spec.version.value)], None).spec
    case RollbackAnswered(_) => true
  }

  /** The spec asks for what the client desired. */
  predicate Asks(spec: Spec, desired: Desired) {
    && spec.model == Some(desired.model) && spec.version == Some(desired.version)
    && spec.port == Some(desired.port) && spec.replicas == Some(desired.replicas) && spec.needs == Some(desired.needs)
  }

  ghost predicate SessionSound(s: State, session: Session) {
    match session
    case PutVersion(_, _, _) => VersionSound(s, session)
    case PutDeployment(_, desired, stage) =>
      stage.Send? ==>
        && DraftSound(s, stage.draft.spec, stage.draft.digest) && stage.draft.precondition == None
        && Asks(stage.draft.spec, desired)
    case Rollback(_, _, _) => RollbackSound(s, session)
  }

  predicate CreatedVersion(session: Session) {
    session.PutVersion? && session.version == VersionAnswered(Answer(201))
  }

  predicate BothCreated(s: State, a: SessionId, b: SessionId)
    requires a in s.sessions && b in s.sessions
  {
    CreatedVersion(s.sessions[a]) && CreatedVersion(s.sessions[b])
  }

  ghost predicate OneCreator(s: State) {
    forall a, b :: a in s.sessions && b in s.sessions && a != b && BothCreated(s, a, b) ==>
      s.sessions[a].key != s.sessions[b].key
  }

  ghost predicate ResourceSound(s: State, r: Resource) {
    r.revision < s.revision && (r.writer == Api ==> DraftSound(s, r.spec, r.digest))
  }

  ghost predicate Inv(s: State) {
    && (forall sid :: sid in s.sessions ==> SessionSound(s, s.sessions[sid]))
    && (forall at :: at in s.resources ==> ResourceSound(s, s.resources[at]))
    && OneCreator(s)
  }

  // ---------------------------------------------------------------- what steps keep

  /** The registry only grows, and a registered version never changes. */
  ghost predicate Grows(s: State, s': State) {
    && s.models <= s'.models
    && s.revision <= s'.revision
    && (forall key :: key in s.versions ==> key in s'.versions && s'.versions[key] == s.versions[key])
  }

  lemma EffectGrows(s: State, session: Session)
    ensures Grows(s, Effect(s, session)) && Effect(s, session).sessions == s.sessions
  {
  }

  lemma StepGrows(s: State, e: Event, s': State)
    requires Next(s, e, s')
    ensures Grows(s, s')
  {
    hide Effect, Moved;
    if e.Advance? || e.Abort? { EffectGrows(s, s.sessions[e.sid]); }
  }

  /** Stored resources: new ones carry a fresh revision. */
  ghost predicate Refreshed(s: State, s': State) {
    forall at :: at in s'.resources ==>
      || s'.resources[at].revision == s.revision < s'.revision
      || (at in s.resources && s'.resources[at].revision == s.resources[at].revision
          && s'.resources[at].spec == s.resources[at].spec && s'.resources[at].digest == s.resources[at].digest)
  }

  lemma EffectRefreshes(s: State, session: Session)
    ensures Refreshed(s, Effect(s, session))
  {
  }

  lemma StepRefreshes(s: State, e: Event, s': State)
    requires Next(s, e, s')
    ensures Refreshed(s, s')
  {
    hide Effect, Moved;
    if e.Advance? || e.Abort? { EffectRefreshes(s, s.sessions[e.sid]); }
  }

  lemma SoundStays(s: State, s': State, session: Session)
    requires SessionSound(s, session) && Grows(s, s') && Refreshed(s, s')
    ensures SessionSound(s', session)
  {
    if session.Rollback? && (session.rollback.FindTarget? || session.rollback.SendBack?) {
      var at := session.at;
      if at in s'.resources { assert at in s.resources || s'.resources[at].revision == s.revision; }
    }
  }

  /** A session's own step keeps it sound. */
  lemma MovedSound(s: State, session: Session)
    requires SessionSound(s, session)
    requires session.Rollback? && session.at in s.resources ==> ResourceSound(s, s.resources[session.at])
    ensures session.PutVersion? ==> SessionSound(Effect(s, session), Moved(s, session))
    ensures !session.PutVersion? ==> SessionSound(s, Moved(s, session))
  {
  }

  lemma AdvanceSound(s: State, sid: SessionId, s': State)
    requires Inv(s) && Next(s, Advance(sid), s')
    ensures SessionSound(s', s'.sessions[sid])
  {
    hide SessionSound, ResourceSound, Moved, Effect, Grows, Refreshed;
    var session := s.sessions[sid];
    MovedSound(s, session);
    EffectGrows(s, session);
    StepGrows(s, Advance(sid), s');
    StepRefreshes(s, Advance(sid), s');
    SameData(Effect(s, session), s');
    SoundStays(if session.PutVersion? then Effect(s, session) else s, s', Moved(s, session));
  }

  lemma SameData(s: State, s': State)
    requires s' == s.(sessions := s'.sessions)
    ensures Grows(s, s') && Refreshed(s, s')
  {
  }

  lemma ClosedSound(s: State, session: Session)
    ensures SessionSound(s, Closed(session, Aborted))
  {
  }

  lemma FreshSound(s: State, session: Session)
    requires Fresh(session)
    ensures SessionSound(s, session)
  {
  }

  lemma StepSessions(s: State, e: Event, s': State, sid: SessionId)
    requires Inv(s) && Next(s, e, s') && sid in s'.sessions
    ensures SessionSound(s', s'.sessions[sid])
  {
    hide Grows, Refreshed, Effect, Moved, SessionSound, Closed, Fresh;
    StepGrows(s, e, s');
    StepRefreshes(s, e, s');
    if e.Advance? || e.Abort? { EffectGrows(s, s.sessions[e.sid]); }
    if e == Advance(sid) {
      AdvanceSound(s, sid, s');
    } else if e.Abort? && e.sid == sid {
      ClosedSound(s', s.sessions[sid]);
    } else if sid in s.sessions {
      SoundStays(s, s', s.sessions[sid]);
    } else {
      FreshSound(s', s'.sessions[sid]);
    }
  }

  /** The writes of a session are sound, so what the API stores is. */
  lemma EffectResources(s: State, session: Session, at: Key)
    requires SessionSound(s, session)
    requires at in s.resources ==> ResourceSound(s, s.resources[at])
    requires at in Effect(s, session).resources
    ensures ResourceSound(Effect(s, session), Effect(s, session).resources[at])
  {
  }

  lemma StepResources(s: State, e: Event, s': State, at: Key)
    requires Inv(s) && Next(s, e, s') && at in s'.resources
    ensures ResourceSound(s', s'.resources[at])
  {
    hide Effect, Moved, SessionSound;
    StepGrows(s, e, s');
    if at in s.resources { assert ResourceSound(s, s.resources[at]); }
    if e.Advance? || (e.Abort? && e.applied) { EffectResources(s, s.sessions[e.sid], at); }
  }

  /** A session answers 201 only in the step that commits its key. */
  lemma CreatorOrigin(s: State, e: Event, s': State, a: SessionId)
    requires Next(s, e, s') && a in s'.sessions && CreatedVersion(s'.sessions[a])
    ensures a in s.sessions && s.sessions[a].PutVersion? && s.sessions[a].key == s'.sessions[a].key
    ensures s.sessions[a] == s'.sessions[a] || (e == Advance(a) && s'.sessions[a].key !in s.versions)
  {
    hide Effect;
    if e.Advance? || e.Abort? { EffectGrows(s, s.sessions[e.sid]); }
  }

  lemma StepCreators(s: State, e: Event, s': State)
    requires Inv(s) && Next(s, e, s')
    ensures OneCreator(s')
  {
    hide Apply, SnapshotSound, DraftSound;
    forall a, b | a in s'.sessions && b in s'.sessions && a != b && BothCreated(s', a, b)
      ensures s'.sessions[a].key != s'.sessions[b].key
    {
      CreatorOrigin(s, e, s', a);
      CreatorOrigin(s, e, s', b);
      assert SessionSound(s, s.sessions[a]) && SessionSound(s, s.sessions[b]);
    }
  }

  lemma StepInv(s: State, e: Event, s': State)
    requires Inv(s) && Next(s, e, s')
    ensures Inv(s')
  {
    hide Apply, SessionSound, ResourceSound, OneCreator;
    forall sid | sid in s'.sessions ensures SessionSound(s', s'.sessions[sid]) { StepSessions(s, e, s', sid); }
    forall at | at in s'.resources ensures ResourceSound(s', s'.resources[at]) { StepResources(s, e, s', at); }
    StepCreators(s, e, s');
  }

  lemma {:induction false} RunInv(states: seq<State>, events: seq<Event>, n: nat)
    requires IsRun(states, events) && states[0] == Empty && n < |states|
    ensures Inv(states[n])
  {
    hide Apply, Enabled;
    if n > 0 {
      RunInv(states, events, n - 1);
      assert Next(states[n - 1], events[n - 1], states[n]);
      StepInv(states[n - 1], events[n - 1], states[n]);
    }
  }

  // ---------------------------------------------------------------- the theorems

  /** The first commit fixes the content of a version for good. */
  lemma {:induction false} VersionsAreImmutable(states: seq<State>, events: seq<Event>, i: nat, j: nat, key: VersionKey)
    requires IsRun(states, events) && i <= j < |states| && key in states[i].versions
    ensures key in states[j].versions && states[j].versions[key] == states[i].versions[key]
    decreases j
  {
    hide Apply, Enabled;
    if i < j {
      VersionsAreImmutable(states, events, i, j - 1, key);
      assert Next(states[j - 1], events[j - 1], states[j]);
      StepGrows(states[j - 1], events[j - 1], states[j]);
    }
  }

  /**
    201 stores the caller's content, 200 finds content that matches it, 409 content
    that does not; the re-read after a lost race always finds the winner; one caller
    at most creates.
  */
  lemma RegistryAnswers(states: seq<State>, events: seq<Event>, n: nat, sid: SessionId)
    requires IsRun(states, events) && states[0] == Empty && n < |states|
    requires sid in states[n].sessions && states[n].sessions[sid].PutVersion?
    requires states[n].sessions[sid].version.VersionAnswered? && states[n].sessions[sid].version.answer.Answer?
    ensures var session := states[n].sessions[sid];
      var code := session.version.answer.code;
      && code in {200, 201, 404, 409}
      && (code in {200, 201, 409} ==>
            && session.key in states[n].versions
            && (code == 409 <==> !Matches(states[n].versions[session.key], session.body)))
      && (code == 201 ==> states[n].versions[session.key] == session.body)
      && (code == 201 ==>
            forall other :: other in states[n].sessions && other != sid && CreatedVersion(states[n].sessions[other]) ==>
            states[n].sessions[other].key != session.key)
  {
    hide Equal;
    RunInv(states, events, n);
    var session := states[n].sessions[sid];
    assert SessionSound(states[n], session);
    if session.version.answer.code == 201 { MatchesItself(session.body); }
  }

  lemma MatchesItself(content: Content)
    ensures Matches(content, content)
  {
    EqualSelf(Object(content.metadata));
  }

  /** A lookup answers 200 for the stored content alone exactly if no value in its metadata has another spelling. */
  lemma AnswersByContentExactly(s: State, key: VersionKey)
    requires key in s.versions
    ensures (forall body ::
               NextVersion(s, key, body, FindVersion) == VersionAnswered(Answer(200)) <==> body == s.versions[key])
       <==> Unambiguous(Object(s.versions[key].metadata))
  {
    hide Equal, Unambiguous;
    var stored := s.versions[key];
    MatchesItself(stored);
    if Unambiguous(Object(stored.metadata)) {
      forall body | Matches(stored, body) ensures body == stored {
        UnambiguousIsItself(Object(stored.metadata), Object(body.metadata));
      }
    } else {
      var other := Respelled(Object(stored.metadata));
      var body := stored.(metadata := OtherFields(Object(stored.metadata), other));
      assert NextVersion(s, key, body, FindVersion) == VersionAnswered(Answer(200)) && body != stored;
    }
  }

  function OtherFields(a: Json, b: Json): (fields: map<string, Json>)
    requires a.Object? && Equal(a, b)
    ensures b == Object(fields)
  {
    b.fields
  }

  /** `{"a": 1}` is stored; a registration of `{"a": true}` is taken for a repetition. */
  lemma TrueMatchesOne(s: State, key: VersionKey)
    requires key in s.versions && s.versions[key] == Content("i", None, map["a" := Whole(1)])
    ensures var body := Content("i", None, map["a" := Truth(true)]);
      body != s.versions[key] && NextVersion(s, key, body, FindVersion) == VersionAnswered(Answer(200))
  {
    var stored, body := map["a" := Whole(1)], map["a" := Truth(true)];
    assert stored["a"] != body["a"];
    assert Equal(stored["a"], body["a"]);
    assert stored.Keys == body.Keys;
  }

  /** Every spec the API has written still carries the image and digest registered for its version. */
  lemma WrittenImageIsRegistered(states: seq<State>, events: seq<Event>, n: nat, at: Key)
    requires IsRun(states, events) && states[0] == Empty && n < |states|
    requires at in states[n].resources && states[n].resources[at].writer == Api
    ensures var r := states[n].resources[at];
      && r.spec.model.Some? && r.spec.version.Some?
      && var key := VersionKey(r.spec.model.value, r.spec.version.value);
      && key in states[n].versions
      && r.spec.image == Some(states[n].versions[key].image) && r.digest == states[n].versions[key].digest
  {
    RunInv(states, events, n);
    assert ResourceSound(states[n], states[n].resources[at]);
  }

  // ---------------------------------------------------------------- what each step answers

  ghost predicate IsRegistering(s: State, sid: SessionId) { sid in s.sessions && s.sessions[sid].PutVersion? }

  /** The contents are the same but for the spelling of numbers in the metadata. */
  predicate SameContent(a: Content, b: Content) {
    && a.image == b.image && a.digest == b.digest
    && Plain(Object(a.metadata)) == Plain(Object(b.metadata))
  }

  /** Registering a version: what each step answers, and that only the commit of a new version changes anything. */
  lemma RegisteringStep(s: State, sid: SessionId, s': State)
    requires IsRegistering(s, sid) && Next(s, Advance(sid), s')
    ensures var session := s.sessions[sid];
      var key, body, stage := session.key, session.body, session.version;
      var inserts := stage == Commit && key !in s.versions && key.model in s.models;
      && s' == s.(sessions := s'.sessions, versions := if inserts then s.versions[key := body] else s.versions)
      && s'.sessions == s.sessions[sid := session.(version :=
           match stage
           case CheckModel => if key.model in s.models then FindVersion else VersionAnswered(Answer(404))
           case FindVersion =>
             if key !in s.versions then Commit
             else VersionAnswered(Answer(if SameContent(s.versions[key], body) then 200 else 409))
           case Commit => if inserts then VersionAnswered(Answer(201)) else FindAgain
           case FindAgain =>
             if key !in s.versions then VersionAnswered(Answer(503))
             else VersionAnswered(Answer(if SameContent(s.versions[key], body) then 200 else 409))
           case VersionAnswered(_) => stage)]
  {
    hide Equal, Plain;
    var session := s.sessions[sid];
    if session.key in s.versions {
      EqualExactly(Object(s.versions[session.key].metadata), Object(session.body.metadata));
    }
  }

  /** At step i the session looked for its model and did not find it. */
  ghost predicate MissedModel(states: seq<State>, events: seq<Event>, i: int, sid: SessionId) {
    && 0 <= i < |events| < |states| && events[i] == Advance(sid)
    && IsRegistering(states[i], sid) && states[i].sessions[sid].version == CheckModel
    && states[i].sessions[sid].key.model !in states[i].models
  }

  ghost predicate AnswersNotFound(s: State, sid: SessionId) {
    IsRegistering(s, sid) && s.sessions[sid].version == VersionAnswered(Answer(404))
  }

  lemma NotFoundStep(s: State, e: Event, s': State, sid: SessionId)
    requires Next(s, e, s') && AnswersNotFound(s', sid) && !AnswersNotFound(s, sid)
    ensures e == Advance(sid) && IsRegistering(s, sid) && s.sessions[sid].version == CheckModel
    ensures s.sessions[sid].key.model !in s.models
  {
    hide Effect, Matches;
    if e.Advance? || e.Abort? { EffectGrows(s, s.sessions[e.sid]); }
  }

  /** Over every run: 404 is the answer to a registration whose model was not there, and to nothing else. */
  lemma {:induction false} NotFoundExactly(states: seq<State>, events: seq<Event>, n: nat, sid: SessionId)
    requires IsRun(states, events) && states[0] == Empty && n < |states| && AnswersNotFound(states[n], sid)
    ensures exists i :: i < n && MissedModel(states, events, i, sid)
  {
    hide Apply, Enabled;
    if n > 0 {
      assert Next(states[n - 1], events[n - 1], states[n]);
      if AnswersNotFound(states[n - 1], sid) {
        NotFoundExactly(states, events, n - 1, sid);
      } else {
        NotFoundStep(states[n - 1], events[n - 1], states[n], sid);
        assert MissedModel(states, events, n - 1, sid);
      }
    }
  }

  ghost predicate IsDeploying(s: State, sid: SessionId) { sid in s.sessions && s.sessions[sid].PutDeployment? }

  /** Looking for the version to deploy: 404 exactly if it is not registered; nothing is written. */
  lemma DeployLookup(s: State, sid: SessionId, s': State)
    requires IsDeploying(s, sid) && s.sessions[sid].deploy == FindImage && Next(s, Advance(sid), s')
    ensures s' == s.(sessions := s'.sessions) && IsDeploying(s', sid)
    ensures var session := s.sessions[sid];
      var registered := VersionKey(session.desired.model, session.desired.version) in s.versions;
      && s'.sessions == s.sessions[sid := session.(deploy := s'.sessions[sid].deploy)]
      && (!registered ==> s'.sessions[sid].deploy == DeployAnswered(Answer(404)))
      && (registered ==> s'.sessions[sid].deploy.Send?)
  {
  }

  /**
    Over every run: the write of a deployment goes through and is answered by 200.  The
    resource then asks for what the client desired, at the image and digest registered
    for that version, and no other resource is touched.
  */
  lemma DeploymentIsWritten(states: seq<State>, events: seq<Event>, n: nat, sid: SessionId)
    requires IsRun(states, events) && states[0] == Empty && n < |events| && events[n] == Advance(sid)
    requires IsDeploying(states[n], sid) && states[n].sessions[sid].deploy.Send?
    ensures var s, s', session := states[n], states[n + 1], states[n].sessions[sid];
      var at, desired := session.at, session.desired;
      && s'.sessions == s.sessions[sid := session.(deploy := DeployAnswered(Answer(200)))]
      && s'.versions == s.versions && s'.models == s.models
      && at in s'.resources && s'.resources == s.resources[at := s'.resources[at]]
      && Asks(s'.resources[at].spec, desired)
      && VersionKey(desired.model, desired.version) in s.versions
      && s'.resources[at].spec.image == Some(s.versions[VersionKey(desired.model, desired.version)].image)
      && s'.resources[at].digest == s.versions[VersionKey(desired.model, desired.version)].digest
      && s'.resources[at].writer == Api
      // An unchanged object keeps its revision, any other gets a new one.
      && s'.resources[at].revision ==
           (if at in s.resources && s.resources[at].spec == s'.resources[at].spec
               && s.resources[at].digest == s'.resources[at].digest
            then s.resources[at].revision else s.revision)
  {
    RunInv(states, events, n);
    assert Next(states[n], events[n], states[n + 1]);
    assert SessionSound(states[n], states[n].sessions[sid]);
  }

  ghost predicate IsRollingBack(s: State, sid: SessionId) { sid in s.sessions && s.sessions[sid].Rollback? }

  /** Can the stored spec be deployed again: a resource name, 1 to 100 replicas and a port, with defaults 1 and 8080. */
  predicate CanBeRolledBack(spec: Spec) {
    && spec.model.Some? && ResourceName(spec.model.value)
    && (spec.replicas.Some? ==> 1 <= spec.replicas.value <= 100)
    && (spec.port.Some? ==> 1 <= spec.port.value <= 65535)
  }

  /** The steps of a rollback before its write: what it answers and what it is about to send. */
  lemma RollbackStep(s: State, sid: SessionId, s': State)
    requires IsRollingBack(s, sid) && Next(s, Advance(sid), s') && !s.sessions[sid].rollback.SendBack?
    ensures s' == s.(sessions := s'.sessions) && IsRollingBack(s', sid)
    ensures var session, stage' := s.sessions[sid], s'.sessions[sid].rollback;
      && s'.sessions == s.sessions[sid := session.(rollback := stage')]
      && (session.rollback == Fetch ==>
            stage' == if session.at !in s.resources then RollbackAnswered(Answer(404))
                      else if s.resources[session.at].spec.model.None? then RollbackAnswered(Answer(502))
                      else FindTarget(s.resources[session.at]))
      && (session.rollback.FindTarget? && session.rollback.current.spec.model.Some? ==>
            var current := session.rollback.current;
            var key := VersionKey(current.spec.model.value, session.target);
            if key !in s.versions then stage' == RollbackAnswered(Answer(404))
            else if !CanBeRolledBack(current.spec) then stage' == RollbackAnswered(Answer(502))
            else
              && stage'.SendBack? && stage'.current == current
              && stage'.draft.precondition == Some(current.revision) && stage'.draft.digest == s.versions[key].digest
              && stage'.draft.spec.image == Some(s.versions[key].image)
              && Asks(stage'.draft.spec, Desired(current.spec.model.value, session.target,
                   if current.spec.replicas.Some? then current.spec.replicas.value else 1,
                   if current.spec.port.Some? then current.spec.port.value else 8080,
                   if current.spec.needs.Some? then current.spec.needs.value else Needs(map[], map[]))))
  {
  }

  /** A resource is shown exactly if it has an identity and an image; a missing count is 1, a missing port 8080. */
  lemma ReadExactly(spec: Spec)
    ensures ReadSpec(spec).Some? <==> spec.model.Some? && spec.version.Some? && spec.image.Some?
    ensures ReadSpec(spec).Some? ==>
      var r := ReadSpec(spec).value;
      && r.model == spec.model.value && r.version == spec.version.value && r.image == spec.image.value
      && r.replicas == (if spec.replicas.Some? then spec.replicas.value else 1)
      && r.port == (if spec.port.Some? then spec.port.value else 8080)
      && r.needs == (if spec.needs.Some? then spec.needs.value else Needs(map[], map[]))
  {
  }

  /** A session that is cut short: its pending call took effect as if it had gone on, or did not; that is all. */
  lemma AbortStep(s: State, sid: SessionId, applied: bool)
    requires Enabled(s, Abort(sid, applied))
    ensures Enabled(s, Advance(sid))
    ensures var s', on := Apply(s, Abort(sid, applied)), Apply(s, Advance(sid));
      && (applied ==> s' == on.(sessions := s'.sessions)) && (!applied ==> s' == s.(sessions := s'.sessions))
      && sid in s'.sessions && s'.sessions == s.sessions[sid := s'.sessions[sid]]
      && s'.sessions[sid] == match s.sessions[sid]
           case PutVersion(key, body, _) => PutVersion(key, body, VersionAnswered(Aborted))
           case PutDeployment(at, desired, _) => PutDeployment(at, desired, DeployAnswered(Aborted))
           case Rollback(at, target, _) => Rollback(at, target, RollbackAnswered(Aborted))
  {
    EffectGrows(s, s.sessions[sid]);
  }

  /** A session can be begun under any free number, and goes on until it is answered. */
  lemma SessionsGoOn(s: State, sid: SessionId, session: Session)
    ensures sid !in s.sessions && Fresh(session) ==>
              && Enabled(s, Begin(sid, session))
              && Apply(s, Begin(sid, session)) == s.(sessions := s.sessions[sid := session])
    ensures session.PutVersion? ==> (Fresh(session) <==> session.version == CheckModel)
    ensures session.PutDeployment? ==> (Fresh(session) <==> session.deploy == FindImage)
    ensures session.Rollback? ==> (Fresh(session) <==> session.rollback == Fetch)
    ensures Enabled(s, Advance(sid)) <==>
      && sid in s.sessions
      && (s.sessions[sid].PutVersion? ==> !s.sessions[sid].version.VersionAnswered?)
      && (s.sessions[sid].PutDeployment? ==> !s.sessions[sid].deploy.DeployAnswered?)
      && (s.sessions[sid].Rollback? ==> !s.sessions[sid].rollback.RollbackAnswered?)
  {
  }

  /** A stored spec with its defaults spelled out. */
  function Filled(spec: Spec): Spec {
    spec.(replicas := Some(GetOr(spec.replicas, 1)), port := Some(GetOr(spec.port, 8080)),
          needs := Some(GetOr(spec.needs, NoNeeds)))
  }

  ghost predicate IsSendingBack(s: State, sid: SessionId) {
    sid in s.sessions && s.sessions[sid].Rollback? && s.sessions[sid].rollback.SendBack?
  }

  /**
    No lost update: a rollback's write goes through exactly if the object still has
    the revision it read; then it changes only version and image of the spec stored
    immediately before, whatever other sessions and writers did in the meantime.
  */
  lemma RollbackLosesNothing(states: seq<State>, events: seq<Event>, n: nat, sid: SessionId)
    requires IsRun(states, events) && states[0] == Empty && n < |events|
    requires IsSendingBack(states[n], sid) && events[n] == Advance(sid)
    ensures var s, s', session := states[n], states[n + 1], states[n].sessions[sid];
      var at, current := session.at, session.rollback.current;
      var won := at in s.resources && s.resources[at].revision == current.revision;
      && s'.sessions[sid] == session.(rollback := RollbackAnswered(Answer(if won then 200 else 409)))
      && (!won ==> s'.resources == s.resources)
      && (won ==>
            && at in s'.resources && s'.resources == s.resources[at := s'.resources[at]]
            && s.resources[at].spec.model.Some?
            && VersionKey(s.resources[at].spec.model.value, session.target) in s.versions
            && s'.resources[at].spec == Filled(s.resources[at].spec).(
                 version := Some(session.target),
                 image := Some(s.versions[VersionKey(s.resources[at].spec.model.value, session.target)].image))
            && s'.resources[at].digest
               == s.versions[VersionKey(s.resources[at].spec.model.value, session.target)].digest)
  {
    hide RolledBack;
    RunInv(states, events, n);
    var s := states[n];
    assert Next(s, events[n], states[n + 1]);
    assert SessionSound(s, s.sessions[sid]);
    RolledBackFills(s.sessions[sid].rollback.current.spec, s.sessions[sid].target);
  }

  lemma RolledBackFills(spec: Spec, target: string)
    ensures RolledBack(spec, target).Some? ==>
      && spec.model.Some?
      && RolledBack(spec, target).value.model == spec.model.value && RolledBack(spec, target).value.version == target
      && forall content, pre :: Render(RolledBack(spec, target).value, content, pre).spec
           == Filled(spec).(version := Some(target), image := Some(content.image))
  {
  }

  /** Rendering and then reading gives back what was asked for, at the registered image. */
  lemma ReadBackRendered(desired: Desired, content: Content, precondition: Option<nat>)
    ensures ReadSpec(Render(desired, content, precondition).spec)
         == Some(SpecRead(desired.model, desired.version, content.image, desired.replicas, desired.port, desired.needs))
  {
  }
}
