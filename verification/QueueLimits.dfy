/**
  Where the protocol's guarantees stop: what one step can do to a finished job
  without the timing discipline, and what key expiry and recovery can cause.
  Each claim that fails is shown on a concrete run from the initial state; the runs
  keep the timing discipline, except for the one that shows what it is needed for.
*/
module QueueLimits {
  import opened Redis
  import opened InferenceQueue
  import opened QueueProtocol
  import opened TimedQueue
  import BoundedRecovery
  import Delivery

  // ---------------------------------------------------------------- exactly when terminal is absorbing

  /** A worker that read the record before it was finished is about to stamp it. */
  predicate LateStamp(s: State, e: Event, id: JobId)
    requires Enabled(s, e)
  {
    e.StampClaim? && s.claims[e.w].job == id
  }

  predicate OtherVerdictFinish(s: State, e: Event, id: JobId)
    requires Enabled(s, e) && id in s.store.jobs
  {
    e.Finish? && s.claims[e.w].job == id && e.outcome.Status() != s.store.jobs[id].status
  }

  /** In any state and with any clocks, a step un-finishes a job exactly if it is a late stamp or the key expires. */
  lemma TerminalKeptExactly(c: Config, s: State, e: Event, s': State, id: JobId)
    requires Next(c, s, e, s') && id in s.store.jobs && s.store.jobs[id].status.Terminal()
    ensures id in s'.store.jobs && s'.store.jobs[id].status.Terminal() <==> !LateStamp(s, e, id) && e != Expire(id)
    ensures id in s'.store.jobs && s'.store.jobs[id].status == s.store.jobs[id].status <==>
              !LateStamp(s, e, id) && e != Expire(id) && !OtherVerdictFinish(s, e, id)
  {
    hide SweepFrom, SweepCuts, RemoveFirst;
    match e {
      case SweepNow(at) => SweepKeepsRecords(s.store, s.store.processing, at - c.lease, at);
      case Recover(at) => SweepKeepsRecords(s.store, s.store.processing, at - c.lease, at);
      case _ =>
    }
  }

  // ---------------------------------------------------------------- exactly when links appear and go

  /** A submission that finds no record while an entry of the same id is still linked. */
  predicate Resubmits(c: Config, s: State, e: Event, id: JobId) {
    e.Enqueue? && e.id == id && Reply(s.store, id, e.payload, c.capacity) == Created
  }

  /** A sweep that runs in this step. */
  predicate Sweeps(s: State, e: Event) { e.SweepNow? || (e.Recover? && Acquires(s, e.at)) }

  /** An LREM of the processing entry of `id`. */
  predicate Unlinks(c: Config, s: State, e: Event, id: JobId)
    requires Enabled(s, e)
  {
    && id in s.store.processing
    && (  || ((e.Drop? || e.Finish?) && s.claims[e.w].job == id)
          || (Sweeps(s, e) && Judge(Lookup(s.store, id), e.at - c.lease) == Unlink))
  }

  lemma SweepLinks(c: Config, s: State, at: real, id: JobId)
    requires s.store.Links(id) == 1
    ensures Sweep(s.store, at - c.lease, at).Links(id)
         == if id in s.store.processing && Judge(Lookup(s.store, id), at - c.lease) == Unlink then 0 else 1
  {
    hide SweepFrom;
    if id in s.store.processing {
      assert multiset(s.store.processing)[id] > 0;
      SweepOnce(s.store, s.store.processing, at - c.lease, at, id);
    } else {
      SweepFrame(s.store, s.store.processing, at - c.lease, at, id);
    }
  }

  /** What each kind of step does to the two lists. */
  lemma ListStep(c: Config, s: State, e: Event, s': State)
    requires Next(c, s, e, s')
    ensures Sweeps(s, e) ==> s'.store == Sweep(s.store, e.at - c.lease, e.at)
    ensures e.Pop? ==> s.store.queue != [] && s'.store == Popped(s.store)
    ensures e.Drop? || e.Finish? ==>
              && s'.store.queue == s.store.queue
              && s'.store.processing == RemoveFirst(s.store.processing, s.claims[e.w].job)
    ensures e.Enqueue? ==>
              && s'.store.queue
                 == s.store.queue + (if Reply(s.store, e.id, e.payload, c.capacity) == Created then [e.id] else [])
              && s'.store.processing == s.store.processing
    ensures !Sweeps(s, e) && !e.Pop? && !e.Drop? && !e.Finish? && !e.Enqueue? ==>
              s'.store.queue == s.store.queue && s'.store.processing == s.store.processing
  {
    hide Sweep, SweepCuts, RemoveFirst;
    assert s.store.queue + [] == s.store.queue;
  }

  /** An id linked once: it is duplicated exactly by a resubmission, and its link goes exactly by an unlink. */
  lemma LinksChangeExactly(c: Config, s: State, e: Event, s': State, id: JobId)
    requires Next(c, s, e, s') && s.store.Links(id) == 1
    ensures s'.store.Links(id) <= 1 <==> !Resubmits(c, s, e, id)
    ensures s'.store.Links(id) == 0 <==> Unlinks(c, s, e, id)
  {
    hide Apply, Sweep, Popped, RemoveFirst;
    ListStep(c, s, e, s');
    if Sweeps(s, e) {
      SweepLinks(c, s, e.at, id);
    } else if e.Pop? {
      Delivery.PopLinks(s.store, id);
    } else if e.Drop? || e.Finish? {
      CutLinks(s.store.processing, s.claims[e.w].job, id);
      assert id in s.store.processing <==> multiset(s.store.processing)[id] > 0;
    }
  }

  lemma CutLinks(ids: seq<JobId>, x: JobId, id: JobId)
    ensures multiset(RemoveFirst(ids, x))[id] ==
              if x == id && id in ids then multiset(ids)[id] - 1 else multiset(ids)[id]
  {
    assert id in ids <==> multiset(ids)[id] > 0;
  }

  /** The ids a sweep finds stranded. */
  function StrandedIds(st: Store, before: real): set<JobId> {
    set id | id in st.processing && Judge(Lookup(st, id), before) == Requeue
  }

  lemma {:induction false} DistinctSize(ids: seq<JobId>, names: set<JobId>)
    requires Distinct(ids) && forall id :: id in ids <==> id in names
    ensures |ids| == |names|
  {
    if ids != [] {
      assert ids == [ids[0]] + ids[1..];
      DistinctSize(ids[1..], names - {ids[0]});
    } else {
      assert names == {};
    }
  }

  /** Recovery keeps the waiting list within a bound exactly if the stranded ids fit, each counted once. */
  lemma RecoveryFitsExactly(st: Store, before: real, now: real, capacity: nat)
    requires before < now || Distinct(st.processing)
    ensures |Sweep(st, before, now).queue| == |st.queue| + |StrandedIds(st, before)|
    ensures |Sweep(st, before, now).queue| <= capacity <==> |st.queue| + |StrandedIds(st, before)| <= capacity
  {
    hide Sweep, Strays;
    SweepRequeuesOnce(st, before, now);
    DistinctSize(Strays(st.jobs, st.processing, before, {}), StrandedIds(st, before));
  }

  // ---------------------------------------------------------------- concrete runs

  const A := JobId("a")
  const B := JobId("b")
  const Base := Config(1, 30.0, 0.0)

  function Fresh(payload: Payload): JobRecord { JobRecord(Queued, Some(payload), None, None, None, true) }

  lemma OneEntry(jobs: map<JobId, JobRecord>, queue: seq<JobId>, id: JobId, before: real, now: real)
    ensures Sweep(Store(queue, [id], jobs), before, now) == SweepOne(Store(queue, [id], jobs), id, before, now)
  {
    var st := Store(queue, [id], jobs);
    assert [id][1..] == [];
    assert SweepFrom(SweepOne(st, id, before, now), [], before, now) == SweepOne(st, id, before, now);
  }

  /** Every run below starts like this: A is submitted and popped. */
  lemma Opening() returns (s1: State, s2: State)
    ensures Next(Base, Initial(0.0), Enqueue(A, "p"), s1) && Next(Base, s1, Pop(0), s2)
    ensures s1.store == Store([A], [], map[A := Fresh("p")]) && s1.claims == map[]
    ensures s2 == State(Store([], [A], map[A := Fresh("p")]), map[0 := Claim(A, JustPopped, 0.0)], 0.0, None, 0.0,
                        History({A}, {}, multiset{}, multiset{A}, multiset{}, []))
  {
    s1 := Apply(Base, Initial(0.0), Enqueue(A, "p"));
    s2 := Apply(Base, s1, Pop(0));
  }

  /** Expiry breaks uniqueness: the key can be submitted again while its old entry still waits. */
  lemma ExpiryDuplicates() returns (states: seq<State>, events: seq<Event>)
    ensures TimelyRun(Base.(capacity := 2), states, events) && states[0] == Initial(0.0)
    ensures states[|events|].store.Links(A) == 2
  {
    var c := Base.(capacity := 2);
    events := [Enqueue(A, "p"), Expire(A), Enqueue(A, "q")];
    var s0 := Initial(0.0);
    var s1 := Apply(c, s0, events[0]);
    var s2 := Apply(c, s1, events[1]);
    var s3 := Apply(c, s2, events[2]);
    states := [s0, s1, s2, s3];
    assert s3.store.queue == [A, A];
  }

  lemma LosingSteps(s2: State) returns (s3: State, s4: State, s5: State)
    requires s2.store == Store([], [A], map[A := Fresh("p")]) && s2.claims == map[0 := Claim(A, JustPopped, 0.0)]
    ensures Next(Base, s2, Expire(A), s3) && Next(Base, s3, Read(0), s4) && Next(Base, s4, Drop(0), s5)
    ensures s5.store == Store([], [], map[]) && s5.past.accepted == s2.past.accepted
    ensures s5.past.finishes == s2.past.finishes
  {
    s3 := Apply(Base, s2, Expire(A));
    s4 := Apply(Base, s3, Read(0));
    assert s4.claims[0].phase == HasRead(None);
    s5 := Apply(Base, s4, Drop(0));
    assert RemoveFirst([A], A) == [];
  }

  /** Expiry breaks delivery: the entry of an expired key is dropped although no `finish` was applied. */
  lemma ExpiryLosesJob() returns (states: seq<State>, events: seq<Event>)
    ensures TimelyRun(Base, states, events) && states[0] == Initial(0.0)
    ensures var s := states[|events|]; A in s.past.accepted && s.store.Links(A) == 0 && s.past.finishes[A] == 0
  {
    hide Apply, Enabled;
    var s1, s2 := Opening();
    var s3, s4, s5 := LosingSteps(s2);
    events := [Enqueue(A, "p"), Pop(0), Expire(A), Read(0), Drop(0)];
    states := [Initial(0.0), s1, s2, s3, s4, s5];
  }

  lemma OrphaningSteps(s2: State) returns (s3: State, s4: State, s5: State)
    requires s2.store == Store([], [A], map[A := Fresh("p")]) && s2.claims == map[0 := Claim(A, JustPopped, 0.0)]
    requires s2.now == 0.0
    ensures Next(Base, s2, Read(0), s3) && Next(Base, s3, Expire(A), s4) && Next(Base, s4, StampClaim(0, 0.0), s5)
    ensures Timely(Base, s4, StampClaim(0, 0.0))
    ensures s5.store.jobs == map[A := JobRecord(Running, None, Some(At(0.0)), None, None, false)]
  {
    s3 := Apply(Base, s2, Read(0));
    assert s3.claims[0].phase == HasRead(Some(Fresh("p")));
    s4 := Apply(Base, s3, Expire(A));
    s5 := Apply(Base, s4, StampClaim(0, 0.0));
  }

  /** A stamp after expiry leaves a record with no payload and no expiry: every later submission conflicts. */
  lemma ExpiredStampOrphans() returns (states: seq<State>, events: seq<Event>)
    ensures TimelyRun(Base, states, events) && states[0] == Initial(0.0)
    ensures var s := states[|events|];
      && A in s.store.jobs && s.store.jobs[A].payload == None && !s.store.jobs[A].ttl
      && forall payload :: Reply(s.store, A, payload, Base.capacity) == Conflict
  {
    hide Apply, Enabled;
    var s1, s2 := Opening();
    var s3, s4, s5 := OrphaningSteps(s2);
    events := [Enqueue(A, "p"), Pop(0), Read(0), Expire(A), StampClaim(0, 0.0)];
    states := [Initial(0.0), s1, s2, s3, s4, s5];
  }

  /** An entry without a stamp: graced by one recovery, requeued by the next that gets the lock. */
  lemma GraceThenRequeue(s: State) returns (s1: State, s2: State, s3: State)
    requires s.store.processing == [A] && A in s.store.jobs && s.store.jobs[A] == Fresh("p") && s.now == 0.0
    requires s.lock == None
    ensures Next(Base, s, Recover(0.0), s1) && Next(Base, s1, Tick(30.0), s2) && Next(Base, s2, Recover(30.0), s3)
    ensures Timely(Base, s, Recover(0.0)) && Timely(Base, s2, Recover(30.0))
    ensures s3.store == Store(s.store.queue + [A], [], s.store.jobs)
    ensures s1.claims == s2.claims == s3.claims == s.claims && s1.now == 0.0 && s3.now == 30.0
    ensures s3.past.expired == s.past.expired
  {
    hide SweepFrom, SweepCuts;
    var graced := Fresh("p").(claimedAt := Some(At(0.0)));
    s1 := Apply(Base, s, Recover(0.0));
    OneEntry(s.store.jobs, s.store.queue, A, -30.0, 0.0);
    assert s1.store == s.store.(jobs := s.store.jobs[A := graced]);
    s2 := Apply(Base, s1, Tick(30.0));
    s3 := Apply(Base, s2, Recover(30.0));
    OneEntry(s1.store.jobs, s1.store.queue, A, 0.0, 30.0);
    assert RemoveFirst([A], A) == [];
    assert s1.store.jobs[A := Fresh("p")] == s.store.jobs;
  }

  lemma LateStampTail(s: State) returns (s1: State, s2: State, s3: State, s4: State, s5: State)
    requires s.store == Store([A], [], map[A := Fresh("p")]) && s.claims.Keys == {0} && s.now == 30.0
    requires s.claims[0].job == A && s.claims[0].phase == HasRead(Some(Fresh("p"))) && s.claims[0].poppedAt == 0.0
    ensures Next(Base, s, Pop(1), s1) && Next(Base, s1, Read(1), s2) && Next(Base, s2, StampClaim(1, 30.0), s3)
    ensures Next(Base, s3, Finish(1, Success(None)), s4) && Next(Base, s4, StampClaim(0, 30.0), s5)
    ensures Timely(Base, s2, StampClaim(1, 30.0)) && Timely(Base, s4, StampClaim(0, 30.0))
    ensures A in s4.store.jobs && s4.store.jobs[A].status == Succeeded
    ensures A in s5.store.jobs && s5.store.jobs[A].status == Running && s5.past.expired == s.past.expired
  {
    s1 := Apply(Base, s, Pop(1));
    s2 := Apply(Base, s1, Read(1));
    assert s2.claims[1].phase == HasRead(Some(Fresh("p")));
    s3 := Apply(Base, s2, StampClaim(1, 30.0));
    s4 := Apply(Base, s3, Finish(1, Success(None)));
    s5 := Apply(Base, s4, StampClaim(0, 30.0));
  }

  /**
    Terminal is not absorbing for a worker that outlives its lease: it overwrites a
    finished job.  All clocks are true; only time passes while the claim is too old.
  */
  lemma LateStampUnfinishes() returns (states: seq<State>, events: seq<Event>, i: nat)
    ensures IsRun(Base, states, events) && states[0] == Initial(0.0) && i < |events|
    ensures forall k :: 0 <= k < |events| && !events[k].Tick? ==> Timely(Base, states[k], events[k])
    ensures forall k :: 0 <= k < |events| && events[k].Tick? ==> states[k].now <= events[k].to
    ensures A in states[i].store.jobs && states[i].store.jobs[A].status == Succeeded
    ensures A in states[|events|].store.jobs && states[|events|].store.jobs[A].status == Running
    ensures A !in states[|events|].past.expired
  {
    hide Apply, Enabled, Timely;
    var s1, s2 := Opening();
    var s3 := OpeningRead(s2);
    var s4, s5, s6 := GraceThenRequeue(s3);
    assert [] + [A] == [A];
    var s7, s8, s9, s10, s11 := LateStampTail(s6);
    events := [Enqueue(A, "p"), Pop(0), Read(0), Recover(0.0), Tick(30.0), Recover(30.0),
               Pop(1), Read(1), StampClaim(1, 30.0), Finish(1, Success(None)), StampClaim(0, 30.0)];
    states := [Initial(0.0), s1, s2, s3, s4, s5, s6, s7, s8, s9, s10, s11];
    i := 10;
    forall k | 0 <= k < |events| && !events[k].Tick? ensures Timely(Base, states[k], events[k]) {
      if !events[k].StampClaim? && !events[k].Recover? { AlwaysTimely(Base, states[k], events[k]); }
    }
  }

  lemma AlwaysTimely(c: Config, s: State, e: Event)
    requires !e.Tick? && !e.StampClaim? && !e.SweepNow? && !e.TakeLock? && !e.Recover?
    ensures Timely(c, s, e)
  {
  }

  lemma OpeningRead(s2: State) returns (s3: State)
    requires s2.store == Store([], [A], map[A := Fresh("p")]) && s2.claims == map[0 := Claim(A, JustPopped, 0.0)]
    ensures Next(Base, s2, Read(0), s3) && s3 == s2.(claims := s3.claims)
    ensures s3.claims.Keys == {0} && s3.claims[0] == Claim(A, HasRead(Some(Fresh("p"))), 0.0)
  {
    s3 := Apply(Base, s2, Read(0));
  }

  /** The worker crashes, and B takes the free place. */
  lemma CrashAndSubmit(s2: State) returns (s3: State, s4: State)
    requires s2.store == Store([], [A], map[A := Fresh("p")]) && s2.claims.Keys == {0} && s2.now == 0.0
    requires s2.lock == None
    ensures Next(Base, s2, Abandon(0), s3) && Next(Base, s3, Enqueue(B, "q"), s4)
    ensures s4.store == Store([B], [A], map[A := Fresh("p"), B := Fresh("q")])
    ensures s4.claims == map[] && s4.now == 0.0 && s4.lock == None
  {
    s3 := Apply(Base, s2, Abandon(0));
    s4 := Apply(Base, s3, Enqueue(B, "q"));
    assert "a" != "b";
    assert A != B;
  }

  /** Recovery does not look at the capacity: the waiting list can exceed it, whatever the discipline. */
  lemma RecoveryExceedsCapacity() returns (states: seq<State>, events: seq<Event>)
    ensures TimelyRun(Base, states, events) && states[0] == Initial(0.0)
    ensures |states[|events|].store.queue| > Base.capacity
  {
    hide Apply, Enabled;
    var s1, s2 := Opening();
    var s3, s4 := CrashAndSubmit(s2);
    var s5, s6, s7 := GraceThenRequeue(s4);
    events := [Enqueue(A, "p"), Pop(0), Abandon(0), Enqueue(B, "q"), Recover(0.0), Tick(30.0), Recover(30.0)];
    states := [Initial(0.0), s1, s2, s3, s4, s5, s6, s7];
  }

  /** The worker has crashed; a lock is taken and its script, one second later, graces the entry. */
  lemma LateGrace(s: State) returns (s1: State, s2: State, s3: State)
    requires s.store == Store([], [A], map[A := Fresh("p")]) && s.claims == map[] && s.now == 0.0 && s.lock == None
    ensures Next(Base, s, TakeLock(0.0), s1) && Next(Base, s1, Tick(1.0), s2) && Next(Base, s2, SweepNow(1.0), s3)
    ensures s1.store == s2.store == s.store && s1.now == 0.0 && s2.now == 1.0 && s1.lock == s2.lock == Some(30.0)
    ensures s1.claims == s2.claims == map[] && s1.attempted == s2.attempted == 0.0 && s1.past == s2.past == s.past
    ensures s3 == s2.(store := Store([], [A], map[A := Fresh("p").(claimedAt := Some(At(1.0)))]), past := s3.past)
    ensures s3.past.expired == s.past.expired
  {
    hide SweepFrom, SweepCuts;
    s1 := Apply(Base, s, TakeLock(0.0));
    s2 := Apply(Base, s1, Tick(1.0));
    s3 := Apply(Base, s2, SweepNow(1.0));
    OneEntry(s.store.jobs, [], A, -29.0, 1.0);
  }

  /** The next lock is taken as soon as it is free; its script, at once, finds the stamp a second too young. */
  lemma EarlySweep(s: State) returns (s1: State, s2: State, s3: State)
    requires s.store == Store([], [A], map[A := Fresh("p").(claimedAt := Some(At(1.0)))])
    requires s.claims == map[] && s.now == 1.0 && s.lock == Some(30.0) && s.attempted == 0.0
    ensures Next(Base, s, Tick(30.0), s1) && Next(Base, s1, TakeLock(30.0), s2) && Next(Base, s2, SweepNow(30.0), s3)
    ensures s1.store == s2.store == s3.store == s.store && s1.now == s2.now == 30.0 && s1.lock == Some(30.0)
    ensures s2.lock == Some(60.0)
    ensures s3.claims == map[] && s3.past.expired == s.past.expired
  {
    hide SweepFrom, SweepCuts;
    s1 := Apply(Base, s, Tick(30.0));
    s2 := Apply(Base, s1, TakeLock(30.0));
    s3 := Apply(Base, s2, SweepNow(30.0));
    OneEntry(s.store.jobs, [], A, 0.0, 30.0);
  }

  lemma Crash(s2: State) returns (s3: State)
    requires s2.claims.Keys == {0}
    ensures Next(Base, s2, Abandon(0), s3) && s3 == s2.(claims := map[])
  {
    s3 := Apply(Base, s2, Abandon(0));
  }

  /** Two scripts in time are not enough once the clock is read after the lock: the entry is still there after both. */
  lemma SecondSweepMisses() returns (states: seq<State>, events: seq<Event>)
    ensures BoundedRecovery.AttentiveRun(Base, 30.0, states, events) && states[0] == Initial(0.0) && |events| == 9
    ensures BoundedRecovery.Stranded(states[3], A) && BoundedRecovery.Stranded(states[9], A)
    ensures BoundedRecovery.Count(Base, 1.0, states, events, 3, 9) == BoundedRecovery.Tally(0, false, 2)
  {
    hide Apply, Enabled, BoundedRecovery.Count;
    var s1, s2 := Opening();
    var s3 := Crash(s2);
    var s4, s5, s6 := LateGrace(s3);
    var s7, s8, s9 := EarlySweep(s6);
    events := [Enqueue(A, "p"), Pop(0), Abandon(0),
               TakeLock(0.0), Tick(1.0), SweepNow(1.0), Tick(30.0), TakeLock(30.0), SweepNow(30.0)];
    states := [Initial(0.0), s1, s2, s3, s4, s5, s6, s7, s8, s9];
    SixCounted(states, events);
  }

  /** What is counted over the last six steps. */
  lemma SixCounted(states: seq<State>, events: seq<Event>)
    requires |states| == 10 && |events| == 9
    requires events[3..] == [TakeLock(0.0), Tick(1.0), SweepNow(1.0), Tick(30.0), TakeLock(30.0), SweepNow(30.0)]
    requires states[3].lock == None && states[5].lock == Some(30.0) && states[5].now == 1.0
    requires states[7].lock == Some(30.0) && states[8].lock == Some(60.0) && states[8].now == 30.0
    ensures BoundedRecovery.Count(Base, 1.0, states, events, 3, 9) == BoundedRecovery.Tally(0, false, 2)
  {
    hide BoundedRecovery.Count;
    assert events[3] == events[3..][0] && events[4] == events[3..][1] && events[5] == events[3..][2];
    assert events[6] == events[3..][3] && events[7] == events[3..][4] && events[8] == events[3..][5];
    CountStep(states, events, 3);
    CountStep(states, events, 4);
    assert BoundedRecovery.Count(Base, 1.0, states, events, 3, 4) == BoundedRecovery.Tally(0, true, 0);
    CountStep(states, events, 5);
    CountStep(states, events, 6);
    assert BoundedRecovery.Count(Base, 1.0, states, events, 3, 6) == BoundedRecovery.Tally(0, false, 1);
    CountStep(states, events, 7);
    CountStep(states, events, 8);
    assert BoundedRecovery.Count(Base, 1.0, states, events, 3, 8) == BoundedRecovery.Tally(0, true, 1);
    CountStep(states, events, 9);
  }

  lemma CountStep(states: seq<State>, events: seq<Event>, n: nat)
    requires |states| == 10 && |events| == 9 && 3 <= n <= 9
    ensures BoundedRecovery.Count(Base, 1.0, states, events, 3, n) ==
      if n == 3 then BoundedRecovery.Tally(0, false, 0)
      else
        var y := BoundedRecovery.Count(Base, 1.0, states, events, 3, n - 1);
        BoundedRecovery.Tallied(Base, 1.0, y, states[n - 1], events[n - 1])
  {
  }
}
