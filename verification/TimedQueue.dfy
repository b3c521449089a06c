/**
  The timing discipline of the workers and what it buys: a live claim ends while
  it is younger than the recovery lease, so no sweep takes a job away from a live
  worker, each job has one holder at a time, and a terminal record is final.

  The discipline leaves room for a sweep that reads the clock up to `slack`
  seconds before its script runs; with `slack == 0.0` reading and scan coincide.
*/
module TimedQueue {
  import opened Redis
  import opened InferenceQueue
  import opened QueueProtocol
  import Delivery

  ghost predicate Sensible(c: Config) { 0.0 <= c.slack < c.lease }

  /** Clock readings are taken from one clock, and time passes only while every live claim is young enough. */
  ghost predicate Timely(c: Config, s: State, e: Event) {
    match e
    case Tick(to) => s.now <= to && forall w :: w in s.claims ==> to - s.claims[w].poppedAt < c.lease - c.slack
    case StampClaim(w, at) => w in s.claims ==> s.claims[w].poppedAt <= at <= s.now
    case SweepNow(at) => s.now - c.slack <= at <= s.now
    case TakeLock(at) => at == s.now
    case Recover(at) => at == s.now
    case _ => true
  }

  ghost predicate TimelyRun(c: Config, states: seq<State>, events: seq<Event>) {
    && Sensible(c)
    && IsRun(c, states, events)
    && forall i {:trigger events[i]} :: 0 <= i < |events| ==> Timely(c, states[i], events[i])
  }

  // ---------------------------------------------------------------- the invariant

  /** The record of a job: final exactly when it was finished, and finished at most once. */
  ghost predicate Settled(s: State, id: JobId) {
    && (id in s.store.queue ==>
          id in s.store.jobs && s.store.jobs[id].status == Queued && s.store.jobs[id].claimedAt == None)
    && (s.store.Links(id) > 0 ==> id in s.store.jobs && !s.store.jobs[id].status.Terminal())
    && s.past.finishes[id] <= 1
    && (s.past.finishes[id] == 1 <==> id in s.store.jobs && s.store.jobs[id].status.Terminal())
    && (id in s.store.jobs ==> WellFormed(s.store.jobs[id], s.now))
  }

  ghost predicate WellFormed(rec: JobRecord, now: real) {
    && (!rec.status.Terminal() ==> rec.result.None? && rec.error.None?)
    && (rec.result.None? || rec.error.None?)
    && (rec.claimedAt.Some? ==> rec.claimedAt.value.At? && rec.claimedAt.value.time <= now)
  }

  /** A live claim: its job is linked in the processing list, unfinished, and never stamped older than the claim. */
  ghost predicate Live(c: Config, s: State, claim: Claim) {
    && claim.job in s.store.processing
    && claim.job in s.store.jobs
    && !s.store.jobs[claim.job].status.Terminal()
    && (var stamp := s.store.jobs[claim.job].claimedAt;
        stamp.Some? ==> stamp.value.At? && claim.poppedAt - c.slack <= stamp.value.time)
    && (claim.phase.HasRead? ==> claim.phase.seen.Some? && !claim.phase.seen.value.status.Terminal())
    && (claim.phase.Holding? ==> s.store.jobs[claim.job].status == Running)
    && claim.poppedAt <= s.now
    && s.now - claim.poppedAt < c.lease - c.slack
  }

  ghost predicate Exclusive(s: State) {
    forall v, w :: v in s.claims && w in s.claims && v != w && s.claims[v].job == s.claims[w].job ==>
      s.claims[v].job in s.past.expired
  }

  ghost predicate Inv(c: Config, s: State) {
    && Sensible(c)
    && Delivery.Inv(s)
    && (forall id :: id !in s.past.expired ==> Settled(s, id))
    && (forall w :: w in s.claims && s.claims[w].job !in s.past.expired ==> Live(c, s, s.claims[w]))
    && Exclusive(s)
  }

  lemma InitialInv(c: Config, start: real)
    requires Sensible(c)
    ensures Inv(c, Initial(start))
  {
  }

  // ---------------------------------------------------------------- the sweep and live claims

  /** A sweep never requeues or unlinks the job of a live claim. */
  lemma LiveVerdict(c: Config, s: State, claim: Claim, at: real)
    requires Live(c, s, claim) && s.now - c.slack <= at <= s.now && Sensible(c)
    ensures Judge(Lookup(s.store, claim.job), at - c.lease) in {Grace, Keep}
  {
  }

  lemma OneLink(s: State, id: JobId)
    requires Delivery.Inv(s) && id !in s.past.expired && s.store.Links(id) > 0
    ensures s.store.Links(id) == 1
  {
    assert Delivery.Tracked(s, id);
  }

  /** What a sweep does to an id that is linked at most once. */
  lemma SweepSingle(st: Store, before: real, now: real, id: JobId)
    requires st.Links(id) <= 1
    ensures id in st.processing ==> GotVerdict(st, Sweep(st, before, now), before, now, id)
    ensures id !in st.processing ==>
      && Lookup(Sweep(st, before, now), id) == Lookup(st, id)
      && multiset(Sweep(st, before, now).queue)[id] == multiset(st.queue)[id]
      && id !in Sweep(st, before, now).processing
  {
    hide SweepFrom;
    var st' := Sweep(st, before, now);
    if id in st.processing {
      assert multiset(st.processing)[id] > 0;
      SweepOnce(st, st.processing, before, now, id);
    } else {
      SweepFrame(st, st.processing, before, now, id);
      assert multiset(st'.processing)[id] == 0;
      assert id !in multiset(st'.processing);
    }
  }

  lemma SweepSettled(c: Config, s: State, at: real, id: JobId)
    requires Delivery.Inv(s) && id !in s.past.expired && Settled(s, id) && at <= s.now
    ensures Settled(ApplySweep(c, s, at), id)
  {
    hide Sweep, SweepCuts;
    var st' := Sweep(s.store, at - c.lease, at);
    if s.store.Links(id) > 0 { OneLink(s, id); }
    SweepSingle(s.store, at - c.lease, at, id);
    assert id in st'.queue <==> multiset(st'.queue)[id] > 0;
    assert id in s.store.queue <==> multiset(s.store.queue)[id] > 0;
    assert id in s.store.processing <==> multiset(s.store.processing)[id] > 0;
    assert id in st'.processing <==> multiset(st'.processing)[id] > 0;
  }

  lemma SweepLive(c: Config, s: State, at: real, claim: Claim)
    requires Sensible(c) && Delivery.Inv(s) && claim.job !in s.past.expired
    requires Live(c, s, claim) && s.now - c.slack <= at <= s.now
    ensures Live(c, ApplySweep(c, s, at), claim)
  {
    hide Sweep, SweepCuts;
    var id := claim.job;
    assert id in multiset(s.store.processing);
    OneLink(s, id);
    SweepSingle(s.store, at - c.lease, at, id);
    LiveVerdict(c, s, claim, at);
    assert multiset(Sweep(s.store, at - c.lease, at).processing)[id] > 0;
  }

  // ---------------------------------------------------------------- settled records, step by step

  lemma EnqueueSettled(c: Config, s: State, job: JobId, payload: Payload, id: JobId)
    requires Delivery.Inv(s) && id !in s.past.expired && Settled(s, id)
    ensures Settled(ApplyEnqueue(c, s, job, payload), id)
  {
    assert Delivery.Tracked(s, id);
    assert id in s.store.queue ==> multiset(s.store.queue)[id] > 0;
  }

  lemma PopSettled(s: State, w: WorkerId, id: JobId)
    requires Enabled(s, Pop(w)) && Settled(s, id)
    ensures Settled(ApplyPop(s, w), id)
  {
    Delivery.PopLinks(s.store, id);
  }

  lemma StampSettled(c: Config, s: State, w: WorkerId, at: real, id: JobId)
    requires Enabled(s, StampClaim(w, at)) && Settled(s, id) && Delivery.Inv(s) && id !in s.past.expired
    requires s.claims[w].job == id ==> Live(c, s, s.claims[w])
    requires at <= s.now
    ensures Settled(ApplyStamp(s, w, at), id)
  {
    if s.claims[w].job == id {
      assert id in multiset(s.store.processing);
      OneLink(s, id);
      assert id !in multiset(s.store.queue);
    }
  }

  lemma FinishSettled(c: Config, s: State, w: WorkerId, outcome: Outcome, id: JobId)
    requires Enabled(s, Finish(w, outcome)) && Settled(s, id) && Delivery.Inv(s) && id !in s.past.expired
    requires s.claims[w].job == id ==> Live(c, s, s.claims[w])
    ensures Settled(ApplyFinish(s, w, outcome), id)
  {
    if s.claims[w].job == id {
      assert id in multiset(s.store.processing);
      OneLink(s, id);
      assert id !in multiset(s.store.queue);
    }
  }

  lemma StepSettled(c: Config, s: State, e: Event, id: JobId)
    requires Inv(c, s) && Enabled(s, e) && Timely(c, s, e) && id !in Apply(c, s, e).past.expired
    ensures Settled(Apply(c, s, e), id)
  {
    hide ApplyEnqueue, ApplyPop, ApplyFinish, ApplyStamp, ApplySweep, Settled, RemoveFirst;
    Delivery.StepPast(c, s, e);
    assert Settled(s, id);
    match e {
      case Enqueue(job, payload) => EnqueueSettled(c, s, job, payload, id);
      case Pop(w) => PopSettled(s, w, id);
      case Read(w) => SettledFrame(s, Apply(c, s, e), id);
      case Drop(w) => DropSettled(c, s, w, id);
      case StampClaim(w, at) => StampSettled(c, s, w, at, id);
      case Finish(w, outcome) => FinishSettled(c, s, w, outcome, id);
      case Abandon(w) => SettledFrame(s, Apply(c, s, e), id);
      case SweepNow(at) => SweepSettled(c, s, at, id);
      case TakeLock(at) => SettledFrame(s, Apply(c, s, e), id);
      case Recover(at) =>
        if Acquires(s, at) {
          SweepSettled(c, s, at, id);
          SettledFrame(ApplySweep(c, s, at), Apply(c, s, e), id);
        } else {
          SettledFrame(s, Apply(c, s, e), id);
        }
      case Expire(job) => SettledFrame(s, Apply(c, s, e), id);
      case Tick(to) => SettledFrame(s, Apply(c, s, e), id);
    }
  }

  lemma SettledFrame(s: State, s': State, id: JobId)
    requires Settled(s, id)
    requires s'.store.queue == s.store.queue && s'.store.processing == s.store.processing
    requires Lookup(s'.store, id) == Lookup(s.store, id) && s'.past.finishes == s.past.finishes && s.now <= s'.now
    ensures Settled(s', id)
  {
    LookupSome(s.store, id);
    LookupSome(s'.store, id);
  }

  /** Under the discipline the drop branch of `claim` only fires for expired keys. */
  lemma DropNeedsExpiry(c: Config, s: State, w: WorkerId)
    requires Inv(c, s) && Enabled(s, Drop(w))
    ensures s.claims[w].job in s.past.expired
  {
  }

  lemma DropSettled(c: Config, s: State, w: WorkerId, id: JobId)
    requires Inv(c, s) && Enabled(s, Drop(w)) && id !in s.past.expired
    ensures Settled(ApplyDrop(s, w), id)
  {
    DropNeedsExpiry(c, s, w);
    assert Settled(s, id);
    assert s.claims[w].job != id;
  }

  // ---------------------------------------------------------------- live claims, step by step

  lemma LiveFrame(c: Config, s: State, s': State, claim: Claim)
    requires Live(c, s, claim)
    requires claim.job in s'.store.processing && Lookup(s'.store, claim.job) == Lookup(s.store, claim.job)
    requires s'.now == s.now
    ensures Live(c, s', claim)
  {
    LookupSome(s'.store, claim.job);
  }

  lemma RemoveOther(ids: seq<JobId>, x: JobId, id: JobId)
    requires x != id && id in ids
    ensures id in RemoveFirst(ids, x)
  {
    assert id in multiset(RemoveFirst(ids, x));
  }

  lemma PopLive(c: Config, s: State, w: WorkerId)
    requires Inv(c, s) && Enabled(s, Pop(w)) && s.store.queue[0] !in s.past.expired
    ensures Live(c, ApplyPop(s, w), ApplyPop(s, w).claims[w])
  {
    assert Settled(s, s.store.queue[0]);
  }

  lemma StampLive(c: Config, s: State, w: WorkerId, at: real)
    requires Inv(c, s) && Enabled(s, StampClaim(w, at)) && Timely(c, s, StampClaim(w, at))
    requires s.claims[w].job !in s.past.expired
    ensures forall payload :: Live(c, ApplyStamp(s, w, at), s.claims[w].(phase := Holding(payload)))
  {
    assert Live(c, s, s.claims[w]);
  }

  /** A live claim survives every step of another worker, of a producer and of a sweeper. */
  lemma OthersKeepLive(c: Config, s: State, e: Event, w: WorkerId)
    requires Inv(c, s) && Enabled(s, e) && Timely(c, s, e)
    requires w in s.claims && s.claims[w].job !in Apply(c, s, e).past.expired
    requires e.Pop? || e.Read? || e.Drop? || e.StampClaim? || e.Finish? || e.Abandon? ==> e.w != w
    ensures Live(c, Apply(c, s, e), s.claims[w])
  {
    hide Live, ApplySweep, Settled, RemoveFirst, Delivery.Inv, Popped;
    var claim, s' := s.claims[w], Apply(c, s, e);
    Delivery.StepPast(c, s, e);
    assert Live(c, s, claim);
    LiveLinked(c, s, claim);
    match e {
      case Enqueue(job, payload) => LiveFrame(c, s, s', claim);
      case Pop(v) => PopKeepsProcessing(s.store, claim.job); LiveFrame(c, s, s', claim);
      case Read(v) => LiveFrame(c, s, s', claim);
      case Drop(v) =>
        assert s.claims[v].job != claim.job by { DropNeedsExpiry(c, s, v); }
        RemoveOther(s.store.processing, s.claims[v].job, claim.job);
        LiveFrame(c, s, s', claim);
      case StampClaim(v, at) =>
        assert s.claims[v].job != claim.job;
        LiveFrame(c, s, s', claim);
      case Finish(v, outcome) =>
        assert s.claims[v].job != claim.job;
        RemoveOther(s.store.processing, s.claims[v].job, claim.job);
        LiveFrame(c, s, s', claim);
      case Abandon(v) => LiveFrame(c, s, s', claim);
      case SweepNow(at) => SweepLive(c, s, at, claim);
      case TakeLock(at) => LiveFrame(c, s, s', claim);
      case Recover(at) =>
        if Acquires(s, at) {
          SweepLive(c, s, at, claim);
          LiveLinked(c, ApplySweep(c, s, at), claim);
          LiveFrame(c, ApplySweep(c, s, at), s', claim);
        } else {
          LiveFrame(c, s, s', claim);
        }
      case Expire(job) => LiveFrame(c, s, s', claim);
      case Tick(to) => LiveTick(c, s, to, claim);
    }
  }

  lemma PopKeepsProcessing(st: Store, id: JobId)
    requires st.queue != []
    ensures id in st.processing ==> id in Popped(st).processing
    ensures Lookup(Popped(st), id) == Lookup(st, id)
  {
  }

  lemma LiveLinked(c: Config, s: State, claim: Claim)
    requires Live(c, s, claim)
    ensures claim.job in s.store.processing && claim.job in s.store.jobs
  {
  }

  lemma LiveTick(c: Config, s: State, to: real, claim: Claim)
    requires Live(c, s, claim) && s.now <= to && to - claim.poppedAt < c.lease - c.slack
    ensures Live(c, s.(now := to), claim)
  {
  }

  lemma ReadLive(c: Config, s: State, w: WorkerId)
    requires Enabled(s, Read(w)) && Live(c, s, s.claims[w])
    ensures Live(c, ApplyRead(s, w), ApplyRead(s, w).claims[w])
  {
  }

  lemma StepLive(c: Config, s: State, e: Event, w: WorkerId)
    requires Inv(c, s) && Enabled(s, e) && Timely(c, s, e)
    requires w in Apply(c, s, e).claims && Apply(c, s, e).claims[w].job !in Apply(c, s, e).past.expired
    ensures Live(c, Apply(c, s, e), Apply(c, s, e).claims[w])
  {
    hide Live, Sweep, SweepCuts, Settled, RemoveFirst, Delivery.Inv, Popped, Enqueued, Finished, Unlinked;
    if e == Pop(w) {
      PopLive(c, s, w);
    } else if e == Read(w) {
      assert Live(c, s, s.claims[w]);
      ReadLive(c, s, w);
    } else if e.StampClaim? && e.w == w {
      StampLive(c, s, w, e.at);
    } else {
      OthersKeepLive(c, s, e, w);
    }
  }

  lemma ClaimedNotWaiting(c: Config, s: State, v: WorkerId)
    requires Inv(c, s) && v in s.claims && s.claims[v].job !in s.past.expired
    ensures s.claims[v].job in s.store.processing && s.claims[v].job !in s.store.queue
  {
    var id := s.claims[v].job;
    assert Live(c, s, s.claims[v]);
    assert id in multiset(s.store.processing);
    OneLink(s, id);
    assert id !in multiset(s.store.queue);
  }

  lemma StepExclusive(c: Config, s: State, e: Event)
    requires Inv(c, s) && Enabled(s, e)
    ensures Exclusive(Apply(c, s, e))
  {
    hide Live, Sweep, SweepCuts, Settled, RemoveFirst, Delivery.Inv, Popped, Enqueued, Finished, Unlinked, Stamped;
    Delivery.StepPast(c, s, e);
    var s' := Apply(c, s, e);
    if e.Pop? {
      forall v | v in s.claims && s.claims[v].job !in s.past.expired ensures s.claims[v].job != s.store.queue[0] {
        ClaimedNotWaiting(c, s, v);
      }
    }
  }

  lemma StepInv(c: Config, s: State, e: Event, s': State)
    requires Inv(c, s) && Next(c, s, e, s') && Timely(c, s, e)
    ensures Inv(c, s')
  {
    hide Live, Settled, Apply, Exclusive, Delivery.Inv, Delivery.Tracked;
    Delivery.StepInv(c, s, e, s');
    StepExclusive(c, s, e);
    forall id | id !in s'.past.expired ensures Settled(s', id) { StepSettled(c, s, e, id); }
    forall w | w in s'.claims && s'.claims[w].job !in s'.past.expired ensures Live(c, s', s'.claims[w]) {
      StepLive(c, s, e, w);
    }
  }

  lemma {:induction false} RunInv(c: Config, states: seq<State>, events: seq<Event>, n: nat)
    requires TimelyRun(c, states, events) && Inv(c, states[0]) && n < |states|
    ensures Inv(c, states[n])
  {
    hide Inv, Apply, Timely;
    if n > 0 {
      RunInv(c, states, events, n - 1);
      assert Next(c, states[n - 1], events[n - 1], states[n]) && Timely(c, states[n - 1], events[n - 1]);
      StepInv(c, states[n - 1], events[n - 1], states[n]);
    }
  }

  // ---------------------------------------------------------------- the theorems

  /** A sweep that read the clock at `at` leaves the entry of `id` in the processing list. */
  ghost predicate SafeFromSweep(c: Config, st: Store, id: JobId, at: real) {
    && Judge(Lookup(st, id), at - c.lease) in {Grace, Keep}
    && id in Sweep(st, at - c.lease, at).processing
  }

  /** At most one worker holds a job; its job is linked, unfinished and safe from any sweep taken now. */
  lemma Exclusivity(c: Config, start: real, states: seq<State>, events: seq<Event>, n: nat, w: WorkerId)
    requires TimelyRun(c, states, events) && states[0] == Initial(start) && n < |states|
    requires w in states[n].claims && states[n].claims[w].job !in states[n].past.expired
    ensures forall v :: v in states[n].claims && states[n].claims[v].job == states[n].claims[w].job ==> v == w
    ensures var id, st := states[n].claims[w].job, states[n].store;
      && id in st.processing && id !in st.queue
      && forall at :: states[n].now - c.slack <= at <= states[n].now ==> SafeFromSweep(c, st, id, at)
  {
    hide SafeFromSweep;
    InitialInv(c, start);
    RunInv(c, states, events, n);
    var s, claim := states[n], states[n].claims[w];
    ClaimedNotWaiting(c, s, w);
    forall at | s.now - c.slack <= at <= s.now ensures SafeFromSweep(c, s.store, claim.job, at) {
      LiveIsSafe(c, s, claim, at);
    }
  }

  lemma LiveIsSafe(c: Config, s: State, claim: Claim, at: real)
    requires Sensible(c) && Delivery.Inv(s) && claim.job !in s.past.expired
    requires Live(c, s, claim) && s.now - c.slack <= at <= s.now
    ensures SafeFromSweep(c, s.store, claim.job, at)
  {
    hide Sweep;
    LiveVerdict(c, s, claim, at);
    SweepLive(c, s, at, claim);
  }

  /** A record gets at most one terminal write and never holds both a result and an error. */
  lemma OneTerminalWrite(c: Config, start: real, states: seq<State>, events: seq<Event>, n: nat, id: JobId)
    requires TimelyRun(c, states, events) && states[0] == Initial(start) && n < |states|
    requires id !in states[n].past.expired
    ensures states[n].past.finishes[id] <= 1
    ensures states[n].past.finishes[id] == 1 <==>
              id in states[n].store.jobs && states[n].store.jobs[id].status.Terminal()
    ensures id in states[n].store.jobs ==> states[n].store.jobs[id].result.None? || states[n].store.jobs[id].error.None?
  {
    InitialInv(c, start);
    RunInv(c, states, events, n);
    assert Settled(states[n], id);
  }

  /** A terminal record is out of everyone's reach. */
  lemma StepTerminal(c: Config, s: State, e: Event, s': State, id: JobId)
    requires Inv(c, s) && Next(c, s, e, s') && Timely(c, s, e) && id !in s'.past.expired
    requires id in s.store.jobs && s.store.jobs[id].status.Terminal()
    ensures Lookup(s'.store, id) == Some(s.store.jobs[id])
  {
    hide ApplySweep, RemoveFirst, Inv, Popped;
    Delivery.StepPast(c, s, e);
    UnclaimedOnceTerminal(c, s, id);
    match e {
      case Pop(w) => PopKeepsProcessing(s.store, id);
      case SweepNow(at) => SweepTerminal(c, s, at, id);
      case Recover(at) => SweepTerminal(c, s, at, id);
      case _ =>
    }
  }

  lemma SweepTerminal(c: Config, s: State, at: real, id: JobId)
    requires id in s.store.jobs && s.store.jobs[id].status.Terminal()
    ensures Lookup(ApplySweep(c, s, at).store, id) == Some(s.store.jobs[id])
  {
    hide SweepFrom, SweepCuts;
    SweepKeepsRecords(s.store, s.store.processing, at - c.lease, at);
  }

  lemma UnclaimedOnceTerminal(c: Config, s: State, id: JobId)
    requires Inv(c, s) && id in s.store.jobs && s.store.jobs[id].status.Terminal() && id !in s.past.expired
    ensures forall w :: w in s.claims ==> s.claims[w].job != id
  {
    hide Delivery.Inv, Settled, Exclusive;
  }

  /** Terminal is final: once a job is finished its record never changes while its key lives. */
  lemma {:induction false} TerminalIsFinal(c: Config, start: real, states: seq<State>, events: seq<Event>, i: nat,
                                           j: nat, id: JobId)
    requires TimelyRun(c, states, events) && states[0] == Initial(start) && i <= j < |states|
    requires id in states[i].store.jobs && states[i].store.jobs[id].status.Terminal() && id !in states[j].past.expired
    ensures Lookup(states[j].store, id) == Some(states[i].store.jobs[id])
    decreases j
  {
    hide Apply, Inv, Timely;
    if i < j {
      assert Next(c, states[j - 1], events[j - 1], states[j]) && Timely(c, states[j - 1], events[j - 1]);
      Delivery.StepPast(c, states[j - 1], events[j - 1]);
      TerminalIsFinal(c, start, states, events, i, j - 1, id);
      InitialInv(c, start);
      RunInv(c, states, events, j - 1);
      StepTerminal(c, states[j - 1], events[j - 1], states[j], id);
    }
  }

  lemma FinishRecords(s: State, w: WorkerId, outcome: Outcome)
    requires Enabled(s, Finish(w, outcome)) && s.claims[w].job in s.store.jobs
    requires s.store.jobs[s.claims[w].job].result.None? && s.store.jobs[s.claims[w].job].error.None?
    ensures Delivered(Lookup(ApplyFinish(s, w, outcome).store, s.claims[w].job), outcome)
  {
  }

  /** The record shows this outcome and nothing of another. */
  ghost predicate Delivered(rec: Option<JobRecord>, outcome: Outcome) {
    && rec.Some? && rec.value.status == outcome.Status()
    && rec.value.result == (if outcome.Success? then outcome.result else None)
    && rec.value.error == (if outcome.Failure? then Some(outcome.error) else None)
  }

  /** What a worker reports is what every later poll shows, exactly, while the key lives. */
  lemma OutcomeIsDelivered(c: Config, start: real, states: seq<State>, events: seq<Event>, i: nat, j: nat)
    requires TimelyRun(c, states, events) && states[0] == Initial(start) && i < j < |states|
    requires events[i].Finish? && events[i].w in states[i].claims
    requires states[i].claims[events[i].w].job !in states[j].past.expired
    ensures Delivered(Lookup(states[j].store, states[i].claims[events[i].w].job), events[i].outcome)
  {
    hide Apply, Inv, Timely, Delivered;
    var s, e := states[i], events[i];
    var id := s.claims[e.w].job;
    assert Next(c, s, e, states[i + 1]) && Timely(c, s, e);
    Delivery.PastGrows(c, states, events, i, j);
    InitialInv(c, start);
    RunInv(c, states, events, i);
    UnfinishedClaim(c, s, e.w);
    FinishIs(c, s, e);
    FinishRecords(s, e.w, e.outcome);
    DeliveredIsTerminal(states[i + 1].store, id, e.outcome);
    TerminalIsFinal(c, start, states, events, i + 1, j, id);
  }

  lemma FinishIs(c: Config, s: State, e: Event)
    requires e.Finish? && Enabled(s, e)
    ensures Apply(c, s, e) == ApplyFinish(s, e.w, e.outcome)
  {
  }

  lemma UnfinishedClaim(c: Config, s: State, w: WorkerId)
    requires Inv(c, s) && w in s.claims && s.claims[w].job !in s.past.expired
    ensures var id := s.claims[w].job;
      id in s.store.jobs && s.store.jobs[id].result.None? && s.store.jobs[id].error.None?
  {
    assert Live(c, s, s.claims[w]) && Settled(s, s.claims[w].job);
  }

  lemma DeliveredIsTerminal(st: Store, id: JobId, outcome: Outcome)
    requires Delivered(Lookup(st, id), outcome)
    ensures id in st.jobs && st.jobs[id].status.Terminal()
  {
  }

  /** The worker's lease: twice the runtime deadline, but at least 30 seconds. */
  function RecoveryLease(timeoutSeconds: int): (lease: int)
    ensures timeoutSeconds > 0 ==> lease - timeoutSeconds >= 15
    ensures lease >= 30 && lease >= 2 * timeoutSeconds
    ensures lease == 30 || lease == 2 * timeoutSeconds
  {
    var twice := timeoutSeconds * 2;
    if twice >= 30 then twice else 30
  }
}
