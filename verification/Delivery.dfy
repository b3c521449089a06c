/**
  What every interleaving keeps, with no assumption about time: at-least-once
  delivery, conservation of list entries, the backpressure bound and the
  stability of submitted payloads.
*/
module Delivery {
  import opened Redis
  import opened InferenceQueue
  import opened QueueProtocol

  // ---------------------------------------------------------------- the invariant

  /** One id: where it is linked, and what its record and the finishes say. */
  ghost predicate Tracked(s: State, id: JobId) {
    && (s.store.Links(id) > 0 || id in s.store.jobs ==> id in s.past.accepted)
    && (id in s.store.jobs && s.store.jobs[id].status.Terminal() ==> s.past.finishes[id] > 0)
    && (id in s.past.accepted && id !in s.past.expired ==>
          && id in s.store.jobs && s.store.jobs[id].ttl
          && s.store.Links(id) <= 1
          && (s.past.finishes[id] == 0 ==> s.store.Links(id) == 1))
  }

  /** What a worker remembers about its job is still explained by the past. */
  ghost predicate Explained(s: State, claim: Claim) {
    && claim.job in s.past.accepted
    && (claim.phase.HasRead? && claim.phase.seen.None? ==> claim.job in s.past.expired)
    && (claim.phase.HasRead? && claim.phase.seen.Some? && claim.phase.seen.value.status.Terminal() ==>
          s.past.finishes[claim.job] > 0)
    && (claim.job !in s.past.expired && claim.job in s.store.jobs ==>
          && (claim.phase.HasRead? && claim.phase.seen.Some? ==>
                claim.phase.seen.value.payload == s.store.jobs[claim.job].payload)
          && (claim.phase.Holding? ==> Some(claim.phase.payload) == s.store.jobs[claim.job].payload))
  }

  ghost predicate Inv(s: State) {
    && (forall id :: Tracked(s, id))
    && (forall w :: w in s.claims ==> Explained(s, s.claims[w]))
  }

  lemma InitialInv(start: real)
    ensures Inv(Initial(start))
  {
  }

  // ---------------------------------------------------------------- one step at a time

  lemma EnqueueTracked(c: Config, s: State, job: JobId, payload: Payload, id: JobId)
    requires Tracked(s, id) && Tracked(s, job)
    ensures Tracked(ApplyEnqueue(c, s, job, payload), id)
  {
  }

  lemma PopLinks(st: Store, id: JobId)
    requires st.queue != []
    ensures Popped(st).Links(id) == st.Links(id)
  {
    assert st.queue == [st.queue[0]] + st.queue[1..];
  }

  lemma PopLinksHead(st: Store)
    requires st.queue != []
    ensures st.Links(st.queue[0]) > 0
  {
    assert st.queue[0] in multiset(st.queue);
  }

  lemma FinishTracked(s: State, w: WorkerId, outcome: Outcome, id: JobId)
    requires Enabled(s, Finish(w, outcome)) && Tracked(s, id) && Explained(s, s.claims[w])
    ensures Tracked(ApplyFinish(s, w, outcome), id)
  {
  }

  lemma DropTracked(s: State, w: WorkerId, id: JobId)
    requires Enabled(s, Drop(w)) && Tracked(s, id) && Explained(s, s.claims[w])
    ensures Tracked(ApplyDrop(s, w), id)
  {
  }

  lemma StampTracked(s: State, w: WorkerId, at: real, id: JobId)
    requires Enabled(s, StampClaim(w, at)) && Tracked(s, id) && Explained(s, s.claims[w])
    ensures Tracked(ApplyStamp(s, w, at), id)
  {
  }

  lemma SweepTracked(c: Config, s: State, at: real, id: JobId)
    requires Tracked(s, id)
    ensures Tracked(ApplySweep(c, s, at), id)
  {
    hide SweepFrom, SweepCuts;
    var st, before := s.store, at - c.lease;
    var st' := Sweep(st, before, at);
    SweepKeepsRecords(st, st.processing, before, at);
    SweepConserves(st, st.processing, before, at);
    var cuts := SweepCuts(st, st.processing, before, at);
    assert st'.Links(id) + cuts[id] == st.Links(id) by {
      assert (multiset(st'.queue) + multiset(st'.processing) + cuts)[id]
          == (multiset(st.queue) + multiset(st.processing))[id];
    }
    if id in s.past.accepted && id !in s.past.expired {
      if id in st.processing {
        assert multiset(st.processing)[id] > 0;
        SweepOnce(st, st.processing, before, at, id);
      } else {
        SweepFrame(st, st.processing, before, at, id);
      }
    }
  }

  lemma StepTracked(c: Config, s: State, e: Event, id: JobId)
    requires Inv(s) && Enabled(s, e)
    ensures Tracked(Apply(c, s, e), id)
  {
    hide ApplyEnqueue, ApplyFinish, ApplyDrop, ApplyStamp, ApplySweep;
    assert Tracked(s, id);
    match e {
      case Enqueue(job, payload) => assert Tracked(s, job); EnqueueTracked(c, s, job, payload, id);
      case Pop(w) => PopLinks(s.store, id);
      case Read(w) =>
      case Drop(w) => DropTracked(s, w, id);
      case StampClaim(w, at) => StampTracked(s, w, at, id);
      case Finish(w, outcome) => FinishTracked(s, w, outcome, id);
      case Abandon(w) =>
      case SweepNow(at) => SweepTracked(c, s, at, id);
      case TakeLock(at) =>
      case Recover(at) => if Acquires(s, at) { SweepTracked(c, s, at, id); }
      case Expire(job) =>
      case Tick(to) =>
    }
  }

  lemma StepPayload(c: Config, s: State, e: Event, s': State, id: JobId)
    requires Next(c, s, e, s') && id in s.store.jobs && e != Expire(id)
    ensures id in s'.store.jobs && s'.store.jobs[id].payload == s.store.jobs[id].payload
  {
    hide SweepFrom, SweepCuts, RemoveFirst;
    match e {
      case SweepNow(at) => SweepKeepsRecords(s.store, s.store.processing, at - c.lease, at);
      case Recover(at) => SweepKeepsRecords(s.store, s.store.processing, at - c.lease, at);
      case _ =>
    }
  }

  /** What one step adds to the past. */
  lemma StepPast(c: Config, s: State, e: Event)
    requires Enabled(s, e)
    ensures s.past.accepted <= Apply(c, s, e).past.accepted
    ensures s.past.expired <= Apply(c, s, e).past.expired
    ensures forall id :: s.past.finishes[id] <= Apply(c, s, e).past.finishes[id]
    ensures e.Expire? ==> e.id in Apply(c, s, e).past.expired
  {
    hide Sweep, SweepCuts, Popped, Enqueued, Finished, Stamped, Unlinked;
  }

  /** Where a claim comes from. */
  lemma StepClaims(c: Config, s: State, e: Event, w: WorkerId)
    requires Enabled(s, e) && w in Apply(c, s, e).claims
    ensures var claim := Apply(c, s, e).claims[w];
      || (w in s.claims && claim == s.claims[w])
      || (e == Pop(w) && claim.job == s.store.queue[0] && claim.phase == JustPopped)
      || (e == Read(w) && claim == s.claims[w].(phase := HasRead(Lookup(s.store, s.claims[w].job))))
      || (e.StampClaim? && e.w == w && s.claims[w].phase.seen.value.payload.Some?
          && claim == s.claims[w].(phase := Holding(s.claims[w].phase.seen.value.payload.value)))
  {
    hide Sweep, SweepCuts, Popped, Enqueued, Finished, Stamped, Unlinked;
  }

  /** History only grows and payloads stay, so what explained a claim goes on explaining it. */
  lemma StepExplained(c: Config, s: State, e: Event, w: WorkerId)
    requires Inv(s) && Enabled(s, e) && w in Apply(c, s, e).claims
    ensures Explained(Apply(c, s, e), Apply(c, s, e).claims[w])
  {
    hide Apply;
    StepPast(c, s, e);
    StepClaims(c, s, e, w);
    if e == Pop(w) {
      PopLinksHead(s.store);
      assert Tracked(s, s.store.queue[0]);
    } else {
      var id := s.claims[w].job;
      assert Explained(s, s.claims[w]) && Tracked(s, id);
      if id in s.store.jobs && e != Expire(id) { StepPayload(c, s, e, Apply(c, s, e), id); }
    }
  }

  lemma StepInv(c: Config, s: State, e: Event, s': State)
    requires Inv(s) && Next(c, s, e, s')
    ensures Inv(s')
  {
    forall id ensures Tracked(s', id) { StepTracked(c, s, e, id); }
    forall w | w in s'.claims ensures Explained(s', s'.claims[w]) { StepExplained(c, s, e, w); }
  }

  lemma {:induction false} RunInv(c: Config, states: seq<State>, events: seq<Event>, n: nat)
    requires IsRun(c, states, events) && Inv(states[0]) && n < |states|
    ensures Inv(states[n])
  {
    if n > 0 {
      RunInv(c, states, events, n - 1);
      assert Next(c, states[n - 1], events[n - 1], states[n]);
      StepInv(c, states[n - 1], events[n - 1], states[n]);
    }
  }

  /** At-least-once delivery: an accepted job whose key never expired is waiting, in progress or finished. */
  lemma AtLeastOnce(c: Config, start: real, states: seq<State>, events: seq<Event>, n: nat, id: JobId)
    requires IsRun(c, states, events) && states[0] == Initial(start) && n < |states|
    requires id in states[n].past.accepted && id !in states[n].past.expired
    ensures id in states[n].store.queue || id in states[n].store.processing || states[n].past.finishes[id] > 0
    ensures states[n].store.Links(id) <= 1
    ensures states[n].past.finishes[id] == 0 ==> states[n].store.Links(id) == 1
  {
    InitialInv(start);
    RunInv(c, states, events, n);
    assert Tracked(states[n], id);
  }

  /** No record stays for good: until its key first expires, a record always carries an expiry. */
  lemma RecordsCarryExpiry(c: Config, start: real, states: seq<State>, events: seq<Event>, n: nat, id: JobId)
    requires IsRun(c, states, events) && states[0] == Initial(start) && n < |states|
    requires id in states[n].store.jobs && id !in states[n].past.expired
    ensures states[n].store.jobs[id].ttl
  {
    InitialInv(start);
    RunInv(c, states, events, n);
    assert Tracked(states[n], id);
  }

  // ---------------------------------------------------------------- conservation

  /** Links created minus links cut are the links there are, id by id; expiry and duplicates included. */
  ghost predicate Conserved(s: State) {
    multiset(s.store.queue) + multiset(s.store.processing) + s.past.removed == s.past.pushed
  }

  lemma UnlinkConserves(st: Store, id: JobId, removed: multiset<JobId>)
    ensures multiset(st.queue) + multiset(RemoveFirst(st.processing, id)) + (removed + Cut(st, id))
         == multiset(st.queue) + multiset(st.processing) + removed
  {
    if id in st.processing { assert multiset(st.processing)[id] > 0; }
  }

  lemma PopConserves(st: Store)
    requires st.queue != []
    ensures multiset(Popped(st).queue) + multiset(Popped(st).processing) == multiset(st.queue) + multiset(st.processing)
  {
    assert st.queue == [st.queue[0]] + st.queue[1..];
  }

  lemma SweepStepConserves(c: Config, s: State, at: real)
    requires Conserved(s)
    ensures Conserved(ApplySweep(c, s, at))
  {
    hide SweepFrom, SweepCuts;
    SweepConserves(s.store, s.store.processing, at - c.lease, at);
  }

  lemma StepConserves(c: Config, s: State, e: Event, s': State)
    requires Conserved(s) && Next(c, s, e, s')
    ensures Conserved(s')
  {
    hide RemoveFirst, ApplySweep, Cut, Popped;
    match e {
      case Pop(w) => PopConserves(s.store);
      case Drop(w) => UnlinkConserves(s.store, s.claims[w].job, s.past.removed);
      case Finish(w, _) => UnlinkConserves(s.store, s.claims[w].job, s.past.removed);
      case SweepNow(at) => SweepStepConserves(c, s, at);
      case Recover(at) => SweepStepConserves(c, s, at);
      case _ =>
    }
  }

  lemma {:induction false} Conservation(c: Config, start: real, states: seq<State>, events: seq<Event>, n: nat)
    requires IsRun(c, states, events) && states[0] == Initial(start) && n < |states|
    ensures Conserved(states[n])
    ensures forall id :: states[n].store.Links(id) == states[n].past.pushed[id] - states[n].past.removed[id]
  {
    if n > 0 {
      Conservation(c, start, states, events, n - 1);
      assert Next(c, states[n - 1], events[n - 1], states[n]);
      StepConserves(c, states[n - 1], events[n - 1], states[n]);
    }
    var s := states[n];
    forall id ensures s.store.Links(id) == s.past.pushed[id] - s.past.removed[id] {
      assert (multiset(s.store.queue) + multiset(s.store.processing) + s.past.removed)[id] == s.past.pushed[id];
    }
  }

  // ---------------------------------------------------------------- backpressure

  function Placed(s: State, origin: Origin): nat { multiset(s.past.origins)[origin] }

  ghost predicate Bounded(c: Config, s: State) {
    && |s.past.origins| == |s.store.queue|
    && Placed(s, Submission) <= c.capacity
  }

  lemma {:induction false} PlacedSplit(origins: seq<Origin>)
    ensures |origins| == multiset(origins)[Submission] + multiset(origins)[Recovery]
  {
    if origins == [] {
      assert multiset(origins) == multiset{};
    } else {
      PlacedSplit(origins[1..]);
      assert origins == [origins[0]] + origins[1..];
      assert multiset(origins) == multiset{origins[0]} + multiset(origins[1..]);
      if origins[0] == Submission { } else { assert origins[0] == Recovery; }
    }
  }

  lemma RecoveredTags(n: nat)
    ensures |Tags(n)| == n && multiset(Tags(n))[Submission] == 0
  {
    assert Submission !in Tags(n);
  }

  lemma SweepBounded(c: Config, s: State, at: real)
    requires Bounded(c, s)
    ensures Bounded(c, ApplySweep(c, s, at))
  {
    hide SweepFrom, SweepCuts, Tags;
    SweepAppends(s.store, s.store.processing, at - c.lease, at);
    RecoveredTags(|Sweep(s.store, at - c.lease, at).queue| - |s.store.queue|);
  }

  lemma StepBounded(c: Config, s: State, e: Event, s': State)
    requires Bounded(c, s) && Next(c, s, e, s')
    ensures Bounded(c, s')
  {
    hide ApplySweep, RemoveFirst;
    match e {
      case Enqueue(_, _) => PlacedSplit(s.past.origins);
      case Pop(w) => assert s.past.origins == [s.past.origins[0]] + s.past.origins[1..];
      case SweepNow(at) => SweepBounded(c, s, at);
      case Recover(at) => SweepBounded(c, s, at);
      case _ =>
    }
  }

  /** The waiting list holds at most `capacity` submitted entries; only recovery exceeds it. */
  lemma {:induction false} Backpressure(c: Config, start: real, states: seq<State>, events: seq<Event>, n: nat)
    requires IsRun(c, states, events) && states[0] == Initial(start) && n < |states|
    ensures Bounded(c, states[n])
    ensures |states[n].store.queue| <= c.capacity + Placed(states[n], Recovery)
    ensures n < |events| && events[n].Enqueue? && |states[n].store.queue| >= c.capacity ==> states[n + 1] == states[n]
  {
    if n > 0 {
      Backpressure(c, start, states, events, n - 1);
      assert Next(c, states[n - 1], events[n - 1], states[n]);
      StepBounded(c, states[n - 1], events[n - 1], states[n]);
    }
    PlacedSplit(states[n].past.origins);
    if n < |events| { assert Next(c, states[n], events[n], states[n + 1]); }
  }

  // ---------------------------------------------------------------- acceptance

  /**
    Over every run: a submission is accepted exactly if its id has no record and fewer
    than `capacity` entries wait; then the record is new and the id joins the end of the
    waiting list.  Any other submission changes nothing.
  */
  lemma AcceptedExactly(c: Config, states: seq<State>, events: seq<Event>, n: nat)
    requires IsRun(c, states, events) && n < |events| && events[n].Enqueue?
    ensures var s, s', id := states[n], states[n + 1], events[n].id;
      var accepted := id !in s.store.jobs && |s.store.queue| < c.capacity;
      && (accepted ==>
            && id in s'.past.accepted
            && s'.store.queue == s.store.queue + [id] && s'.store.processing == s.store.processing
            && s'.store.jobs == s.store.jobs[id := JobRecord(Queued, Some(events[n].payload), None, None, None, true)]
            && s'.claims == s.claims && s'.lock == s.lock && s'.now == s.now)
      && (!accepted ==> s' == s)
      && Reply(s.store, id, events[n].payload, c.capacity)
         == (if accepted then Created else if id !in s.store.jobs then Full
             else if s.store.jobs[id].payload == Some(events[n].payload) then Unchanged else Conflict)
  {
    assert Next(c, states[n], events[n], states[n + 1]);
  }

  // ---------------------------------------------------------------- idempotent submission

  /** While a record lives, no step changes its payload. */
  lemma {:induction false} PayloadStable(c: Config, states: seq<State>, events: seq<Event>, i: nat, j: nat, id: JobId)
    requires IsRun(c, states, events) && i <= j < |states| && id in states[i].store.jobs
    requires forall k :: i <= k < j ==> events[k] != Expire(id)
    ensures id in states[j].store.jobs && states[j].store.jobs[id].payload == states[i].store.jobs[id].payload
    decreases j
  {
    if i < j {
      PayloadStable(c, states, events, i, j - 1, id);
      assert Next(c, states[j - 1], events[j - 1], states[j]);
      StepPayload(c, states[j - 1], events[j - 1], states[j], id);
    }
  }

  /** A repeated submission changes nothing, even on a full queue, and conflicts exactly on a different payload. */
  lemma IdempotentSubmission(c: Config, states: seq<State>, events: seq<Event>, i: nat, j: nat, id: JobId,
                             first: Payload, again: Payload)
    requires IsRun(c, states, events) && i < j < |events|
    requires events[i] == Enqueue(id, first) && id !in states[i].store.jobs && |states[i].store.queue| < c.capacity
    requires forall k :: i < k < j ==> events[k] != Expire(id)
    requires events[j] == Enqueue(id, again)
    ensures states[j + 1] == states[j]
    ensures Reply(states[j].store, id, again, c.capacity) == if again == first then Unchanged else Conflict
  {
    assert Next(c, states[i], events[i], states[i + 1]);
    assert Next(c, states[j], events[j], states[j + 1]);
    PayloadStable(c, states, events, i + 1, j, id);
  }

  /** A worker finishes a job with the payload that was submitted for it, whoever else touched it meanwhile. */
  lemma WorkersRunTheSubmission(c: Config, start: real, states: seq<State>, events: seq<Event>, i: nat, j: nat,
                                w: WorkerId)
    requires IsRun(c, states, events) && states[0] == Initial(start) && i < j < |events|
    requires events[i].Enqueue? && events[i].id !in states[i].store.jobs && |states[i].store.queue| < c.capacity
    requires w in states[j].claims && states[j].claims[w].job == events[i].id && states[j].claims[w].phase.Holding?
    requires events[i].id !in states[j].past.expired
    ensures states[j].claims[w].phase.payload == events[i].payload
  {
    hide Apply, Tracked;
    var id := events[i].id;
    InitialInv(start);
    RunInv(c, states, events, j);
    assert Next(c, states[i], events[i], states[i + 1]);
    EnqueueStores(c, states[i], events[i]);
    forall k | i + 1 <= k < j ensures events[k] != Expire(id) {
      if events[k] == Expire(id) {
        assert Next(c, states[k], events[k], states[k + 1]);
        StepPast(c, states[k], events[k]);
        PastGrows(c, states, events, k + 1, j);
      }
    }
    PayloadStable(c, states, events, i + 1, j, id);
    assert Explained(states[j], states[j].claims[w]);
  }

  lemma EnqueueStores(c: Config, s: State, e: Event)
    requires e.Enqueue? && e.id !in s.store.jobs && |s.store.queue| < c.capacity
    ensures var s' := Apply(c, s, e); e.id in s'.store.jobs && s'.store.jobs[e.id].payload == Some(e.payload)
  {
  }

  lemma {:induction false} PastGrows(c: Config, states: seq<State>, events: seq<Event>, m: nat, n: nat)
    requires IsRun(c, states, events) && m <= n < |states|
    ensures states[m].past.expired <= states[n].past.expired
    decreases n
  {
    hide Apply;
    if m < n {
      PastGrows(c, states, events, m, n - 1);
      assert Next(c, states[n - 1], events[n - 1], states[n]);
      StepPast(c, states[n - 1], events[n - 1]);
    }
  }

  // ---------------------------------------------------------------- first come, first served

  /** How many pops happen from step `i` up to step `j`. */
  function Pops(events: seq<Event>, i: nat, j: nat): nat
    requires i <= j <= |events|
    decreases j
  {
    if i == j then 0 else Pops(events, i, j - 1) + if events[j - 1].Pop? then 1 else 0
  }

  lemma QueueStep(c: Config, s: State, e: Event, s': State)
    requires Next(c, s, e, s')
    ensures e.Pop? ==> s.store.queue != [] && s'.store.queue == s.store.queue[1..]
    ensures !e.Pop? ==> s.store.queue <= s'.store.queue
  {
    hide SweepFrom, SweepCuts, RemoveFirst;
    match e {
      case SweepNow(at) => SweepAppends(s.store, s.store.processing, at - c.lease, at);
      case Recover(at) => SweepAppends(s.store, s.store.processing, at - c.lease, at);
      case _ =>
    }
  }

  /** The waiting list is served in order: after `k` pops the old list less its first `k` entries still heads it. */
  lemma {:induction false} ServedInOrder(c: Config, states: seq<State>, events: seq<Event>, i: nat, j: nat)
    requires IsRun(c, states, events) && i <= j < |states|
    ensures Pops(events, i, j) <= |states[i].store.queue| ==>
              states[i].store.queue[Pops(events, i, j)..] <= states[j].store.queue
    decreases j
  {
    hide Apply;
    if i < j {
      ServedInOrder(c, states, events, i, j - 1);
      assert Next(c, states[j - 1], events[j - 1], states[j]);
      QueueStep(c, states[j - 1], events[j - 1], states[j]);
    }
  }

  /** The entry at position `k` is the one the pop after `k` further pops takes. */
  lemma PopTakesItsTurn(c: Config, states: seq<State>, events: seq<Event>, i: nat, j: nat)
    requires IsRun(c, states, events) && i <= j < |events| && events[j].Pop?
    requires Pops(events, i, j) < |states[i].store.queue|
    ensures events[j].w in states[j + 1].claims
    ensures states[j + 1].claims[events[j].w].job == states[i].store.queue[Pops(events, i, j)]
    ensures states[j + 1].store.processing == states[j].store.processing + [states[i].store.queue[Pops(events, i, j)]]
    ensures states[j + 1].store.jobs == states[j].store.jobs
  {
    ServedInOrder(c, states, events, i, j);
    assert Next(c, states[j], events[j], states[j + 1]);
    PopIs(c, states[j], events[j].w);
  }

  lemma PopIs(c: Config, s: State, w: WorkerId)
    requires Enabled(s, Pop(w))
    ensures Apply(c, s, Pop(w)).claims[w].job == s.store.queue[0]
    ensures Apply(c, s, Pop(w)).store.processing == s.store.processing + [s.store.queue[0]]
    ensures Apply(c, s, Pop(w)).store.jobs == s.store.jobs
  {
  }
}
