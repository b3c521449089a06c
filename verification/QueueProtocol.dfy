/**
  The inference queue as a concurrent protocol.  Producers, worker coroutines and
  sweepers take turns, one Redis round trip at a time, in any order; a worker may
  crash or give up between any two of its round trips, and job keys may expire.

  Nothing here constrains the clock readings that stamps and sweeps carry: the
  results of this module hold for every interleaving and any clocks.  `TimedQueue`
  adds the timing discipline on top of the same steps.
*/
module QueueProtocol {
  import opened Redis
  import opened InferenceQueue

  type WorkerId = nat

  /** How far `claim` has come: popped; record read; stamped and being worked on. */
  datatype Phase = JustPopped | HasRead(seen: Option<JobRecord>) | Holding(payload: Payload)

  datatype Claim = Claim(job: JobId, phase: Phase, poppedAt: real)

  datatype Config = Config(capacity: nat, lease: real, slack: real)

  /** Who placed a waiting-list entry. */
  datatype Origin = Submission | Recovery

  /** What has happened so far; the protocol never reads it. */
  datatype History = History(
    accepted: set<JobId>,         // ids some enqueue reported as created
    expired: set<JobId>,          // ids whose key has expired at some point
    finishes: multiset<JobId>,    // applied `finish` transactions
    pushed: multiset<JobId>,      // links created by enqueue
    removed: multiset<JobId>,     // links cut by an LREM that found one
    origins: seq<Origin>)         // who placed each entry of the waiting list

  datatype State = State(
    store: Store,
    claims: map<WorkerId, Claim>,  // the live claims
    now: real,
    lock: Option<real>,            // when the recovery lock expires
    attempted: real,               // the last recovery attempt
    past: History)

  datatype Event =
    | Enqueue(id: JobId, payload: Payload)
    | Pop(w: WorkerId)
    | Read(w: WorkerId)
    | Drop(w: WorkerId)
    | StampClaim(w: WorkerId, at: real)
    | Finish(w: WorkerId, outcome: Outcome)
    | Abandon(w: WorkerId)     // crash, or an error that ends the claim
    | SweepNow(at: real)       // the sweep script alone
    | TakeLock(at: real)       // the lock attempt alone: its script runs later, or never
    | Recover(at: real)        // lock attempt and, if acquired, the script
    | Expire(id: JobId)
    | Tick(to: real)

  function Initial(start: real): State {
    State(Store([], [], map[]), map[], start, None, start, History({}, {}, multiset{}, multiset{}, multiset{}, []))
  }

  predicate Enabled(s: State, e: Event) {
    match e
    case Enqueue(_, _) => true
    case Pop(w) => w !in s.claims && s.store.queue != []
    case Read(w) => w in s.claims && s.claims[w].phase.JustPopped?
    case Drop(w) =>
      && w in s.claims && s.claims[w].phase.HasRead?
      && (s.claims[w].phase.seen.None? || s.claims[w].phase.seen.value.status.Terminal())
    case StampClaim(w, _) =>
      && w in s.claims && s.claims[w].phase.HasRead?
      && s.claims[w].phase.seen.Some? && !s.claims[w].phase.seen.value.status.Terminal()
    case Finish(w, _) => w in s.claims && s.claims[w].phase.Holding?
    case Abandon(w) => w in s.claims
    case Expire(id) => id in s.store.jobs && s.store.jobs[id].ttl
    case _ => true
  }

  predicate Acquires(s: State, at: real) { s.lock.None? || s.lock.value <= at }

  /** Links of `id` cut by one `LREM processing 1 id`. */
  function Cut(st: Store, id: JobId): multiset<JobId> {
    if id in st.processing then multiset{id} else multiset{}
  }

  function ApplyEnqueue(c: Config, s: State, id: JobId, payload: Payload): State {
    if Reply(s.store, id, payload, c.capacity) != Created then s
    else
      s.(store := Enqueued(s.store, id, payload, c.capacity),
         past := s.past.(accepted := s.past.accepted + {id},
                         pushed := s.past.pushed + multiset{id},
                         origins := s.past.origins + [Submission]))
  }

  function ApplyPop(s: State, w: WorkerId): State
    requires Enabled(s, Pop(w))
  {
    s.(store := Popped(s.store),
       claims := s.claims[w := Claim(s.store.queue[0], JustPopped, s.now)],
       past := s.past.(origins := if s.past.origins == [] then [] else s.past.origins[1..]))
  }

  function ApplyRead(s: State, w: WorkerId): State
    requires Enabled(s, Read(w))
  {
    var claim := s.claims[w];
    s.(claims := s.claims[w := claim.(phase := HasRead(Lookup(s.store, claim.job)))])
  }

  function ApplyDrop(s: State, w: WorkerId): State
    requires Enabled(s, Drop(w))
  {
    var id := s.claims[w].job;
    s.(store := Unlinked(s.store, id),
       claims := s.claims - {w},
       past := s.past.(removed := s.past.removed + Cut(s.store, id)))
  }

  /** A claim whose record had no payload is stamped all the same and then raises. */
  function ApplyStamp(s: State, w: WorkerId, at: real): State
    requires Enabled(s, StampClaim(w, at))
  {
    var claim := s.claims[w];
    s.(store := Stamped(s.store, claim.job, at),
       claims := if claim.phase.seen.value.payload.None? then s.claims - {w}
                 else s.claims[w := claim.(phase := Holding(claim.phase.seen.value.payload.value))])
  }

  function ApplyFinish(s: State, w: WorkerId, outcome: Outcome): State
    requires Enabled(s, Finish(w, outcome))
  {
    var id := s.claims[w].job;
    s.(store := Finished(s.store, id, outcome),
       claims := s.claims - {w},
       past := s.past.(finishes := s.past.finishes + multiset{id},
                       removed := s.past.removed + Cut(s.store, id)))
  }

  function Tags(n: int): seq<Origin> { if n <= 0 then [] else seq(n, _ => Recovery) }

  function ApplySweep(c: Config, s: State, at: real): State {
    var st := Sweep(s.store, at - c.lease, at);
    s.(store := st,
       past := s.past.(removed := s.past.removed + SweepCuts(s.store, s.store.processing, at - c.lease, at),
                       origins := s.past.origins + Tags(|st.queue| - |s.store.queue|)))
  }

  /** SET NX EX on the recovery lock. */
  function ApplyLock(c: Config, s: State, at: real): State {
    s.(lock := if Acquires(s, at) then Some(at + c.lease) else s.lock, attempted := at)
  }

  function Apply(c: Config, s: State, e: Event): State
    requires Enabled(s, e)
  {
    match e
    case Enqueue(id, payload) => ApplyEnqueue(c, s, id, payload)
    case Pop(w) => ApplyPop(s, w)
    case Read(w) => ApplyRead(s, w)
    case Drop(w) => ApplyDrop(s, w)
    case StampClaim(w, at) => ApplyStamp(s, w, at)
    case Finish(w, outcome) => ApplyFinish(s, w, outcome)
    case Abandon(w) => s.(claims := s.claims - {w})
    case SweepNow(at) => ApplySweep(c, s, at)
    case TakeLock(at) => ApplyLock(c, s, at)
    case Recover(at) =>
      var locked := ApplyLock(c, s, at);
      if Acquires(s, at) then ApplySweep(c, s, at).(lock := locked.lock, attempted := locked.attempted) else locked
    case Expire(id) =>
      s.(store := s.store.(jobs := s.store.jobs - {id}), past := s.past.(expired := s.past.expired + {id}))
    case Tick(to) => s.(now := to)
  }

  predicate Next(c: Config, s: State, e: Event, s': State) {
    Enabled(s, e) && s' == Apply(c, s, e)
  }

  /** A run: any sequence of enabled steps. */
  predicate IsRun(c: Config, states: seq<State>, events: seq<Event>) {
    && |states| == |events| + 1
    && forall i {:trigger events[i]} :: 0 <= i < |events| ==> Next(c, states[i], events[i], states[i + 1])
  }

  /** Who can act: producers and sweepers always, idle workers while jobs wait, busy ones with their next round trip. */
  lemma NobodyIsStuck(s: State, w: WorkerId, id: JobId, payload: Payload, outcome: Outcome, at: real)
    ensures Enabled(s, Enqueue(id, payload)) && Enabled(s, SweepNow(at)) && Enabled(s, TakeLock(at))
    ensures Enabled(s, Recover(at)) && Enabled(s, Tick(at))
    ensures Enabled(s, Pop(w)) <==> w !in s.claims && s.store.queue != []
    ensures Enabled(s, Read(w)) <==> w in s.claims && s.claims[w].phase == JustPopped
    ensures Enabled(s, Drop(w)) <==> w in s.claims && s.claims[w].phase.HasRead? && Over(s.claims[w].phase.seen)
    ensures Enabled(s, StampClaim(w, at)) <==>
              w in s.claims && s.claims[w].phase.HasRead? && !Over(s.claims[w].phase.seen)
    ensures Enabled(s, Finish(w, outcome)) <==> w in s.claims && s.claims[w].phase.Holding?
    ensures Enabled(s, Abandon(w)) <==> w in s.claims
  {
  }

  /** A recovery that gets the lock is the lock attempt followed at once by the script. */
  lemma UninterruptedRecovery(c: Config, s: State, at: real)
    ensures Apply(c, s, Recover(at)) ==
      if Acquires(s, at) then Apply(c, Apply(c, s, TakeLock(at)), SweepNow(at)) else Apply(c, s, TakeLock(at))
  {
    hide Sweep, SweepCuts;
  }

  /** The three round trips of `claim`, with nothing in between, are the queue object's `Claim`. */
  lemma UninterruptedClaim(c: Config, s: State, w: WorkerId, at: real)
    requires Enabled(s, Pop(w))
    ensures Enabled(Apply(c, s, Pop(w)), Read(w))
    ensures var read := Apply(c, Apply(c, s, Pop(w)), Read(w));
      var last := if Enabled(read, Drop(w)) then Drop(w) else StampClaim(w, at);
      && Enabled(read, last)
      && Apply(c, read, last).store == ClaimedStore(s.store, at)
      && (w in Apply(c, read, last).claims <==>
            s.store.queue[0] in s.store.jobs && !s.store.jobs[s.store.queue[0]].status.Terminal()
            && s.store.jobs[s.store.queue[0]].payload.Some?)
  {
    hide RemoveFirst, Sweep, SweepCuts;
    var popped := Apply(c, s, Pop(w));
    assert popped.claims[w].job == s.store.queue[0];
    var read := Apply(c, popped, Read(w));
    assert read.claims[w].phase == HasRead(Lookup(s.store, s.store.queue[0]));
  }
}
