/**
  How long a stranded entry can stay stranded.  Sweeps are admitted by a lock that
  lives for one lease, and some worker attempts to take it at least every `gap`
  seconds.  Lock and script are two round trips, and the clock is read in between: a
  script is in time if it runs within `delay` of its lock.  A lock is lost if no
  script runs in time under it, be it that its holder died or was too slow.

  An entry whose worker is gone, stamped or not, is back in the waiting list by the
  second lock that is not lost if lock and script fall on one clock reading, and by
  the third otherwise.  With f lost locks that is within 2 + f, or 3 + f, times the
  lease plus gap, and the delay.
*/
module BoundedRecovery {
  import opened Redis
  import opened InferenceQueue
  import opened QueueProtocol
  import opened TimedQueue
  import Delivery

  /** A timely run in which no more than `gap` seconds pass without a recovery attempt. */
  ghost predicate AttentiveRun(c: Config, gap: real, states: seq<State>, events: seq<Event>) {
    && 0.0 <= gap
    && TimelyRun(c, states, events)
    && forall i {:trigger events[i]} :: 0 <= i < |events| ==> Attentive(gap, states[i], events[i])
  }

  ghost predicate Attentive(gap: real, s: State, e: Event) {
    e.Tick? ==> e.to <= s.attempted + gap
  }

  /** A sweep gets the lock and runs. */
  ghost predicate Acquired(s: State, e: Event) { e.Recover? && Acquires(s, e.at) }

  /** The lock is taken; its script is yet to come. */
  ghost predicate LocksOnly(s: State, e: Event) { e.TakeLock? && Acquires(s, e.at) }

  ghost predicate Locks(s: State, e: Event) { Acquired(s, e) || LocksOnly(s, e) }

  ghost predicate Sweeps(s: State, e: Event) { e.SweepNow? || Acquired(s, e) }

  /** A script in time: its clock was read after the standing lock was taken, and it runs within the delay. */
  ghost predicate InTime(c: Config, delay: real, s: State, e: Event) {
    && e.SweepNow? && s.lock.Some?
    && s.lock.value - c.lease <= e.at && s.now <= s.lock.value - c.lease + delay
  }

  /** The locks taken: those lost for good, whether the last one still waits for its script, and those served. */
  datatype Tally = Tally(lost: nat, waiting: bool, served: nat) {
    function Lost(): nat { lost + if waiting then 1 else 0 }
    function Taken(): nat { Lost() + served }
  }

  ghost function Tallied(c: Config, delay: real, y: Tally, s: State, e: Event): Tally {
    if Acquired(s, e) then Tally(y.Lost(), false, y.served + 1)
    else if LocksOnly(s, e) then Tally(y.Lost(), true, y.served)
    else if y.waiting && InTime(c, delay, s, e) then Tally(y.lost, false, y.served + 1)
    else y
  }

  /** The locks taken from state i on, as they stand at state n. */
  ghost function Count(c: Config, delay: real, states: seq<State>, events: seq<Event>, i: nat, n: nat): Tally
    requires n < |states| == |events| + 1
  {
    if n <= i then Tally(0, false, 0)
    else Tallied(c, delay, Count(c, delay, states, events, i, n - 1), states[n - 1], events[n - 1])
  }

  /** How many locks must be served: a script that runs after its lock may find the stamp a little too young. */
  function Rounds(delay: real): nat { if delay == 0.0 then 2 else 3 }

  /** The time that `k` locks, each held for a lease and retaken within a gap, can cover. */
  ghost function Span(c: Config, gap: real, k: nat): real {
    if k == 0 then 0.0 else Span(c, gap, k - 1) + (c.lease + gap)
  }

  lemma {:induction false} SpanIs(c: Config, gap: real, k: nat)
    ensures Span(c, gap, k) == k as real * (c.lease + gap)
  {
    if k > 0 {
      SpanIs(c, gap, k - 1);
      assert k as real == (k - 1) as real + 1.0;
    }
  }

  lemma {:induction false} SpanGrows(c: Config, gap: real, j: nat, k: nat)
    requires j <= k && 0.0 <= c.lease + gap
    ensures Span(c, gap, j) <= Span(c, gap, k)
    decreases k
  {
    if j < k { SpanGrows(c, gap, j, k - 1); }
  }

  ghost predicate Clocked(c: Config, gap: real, s: State) {
    && s.attempted <= s.now <= s.attempted + gap
    && (s.lock.Some? ==> s.lock.value <= s.attempted + c.lease)
  }

  /** A processing entry that no live worker will finish. */
  ghost predicate Stranded(s: State, id: JobId) {
    && id in s.store.processing
    && id !in s.past.expired
    && forall w :: w in s.claims ==> s.claims[w].job != id
  }

  // ---------------------------------------------------------------- the lock

  lemma LockStep(c: Config, s: State, e: Event, s': State)
    requires Next(c, s, e, s')
    ensures e.Recover? || e.TakeLock? ==>
              s'.attempted == e.at && s'.lock == if Acquires(s, e.at) then Some(e.at + c.lease) else s.lock
    ensures !e.Recover? && !e.TakeLock? ==> s'.attempted == s.attempted && s'.lock == s.lock
    ensures e.Tick? ==> s'.now == e.to
    ensures !e.Tick? ==> s'.now == s.now
  {
    hide Sweep, SweepCuts, RemoveFirst;
  }

  lemma StepClocked(c: Config, gap: real, s: State, e: Event, s': State)
    requires Next(c, s, e, s') && Timely(c, s, e) && Attentive(gap, s, e) && 0.0 <= gap && Clocked(c, gap, s)
    ensures Clocked(c, gap, s')
  {
    hide Apply;
    LockStep(c, s, e, s');
  }

  lemma {:induction false} RunClocked(c: Config, gap: real, start: real, states: seq<State>, events: seq<Event>, n: nat)
    requires AttentiveRun(c, gap, states, events) && states[0] == Initial(start) && n < |states|
    ensures Clocked(c, gap, states[n]) && Inv(c, states[n])
  {
    hide Inv, Apply, Timely;
    InitialInv(c, start);
    RunInv(c, states, events, n);
    if n > 0 {
      RunClocked(c, gap, start, states, events, n - 1);
      assert Next(c, states[n - 1], events[n - 1], states[n]) && Timely(c, states[n - 1], events[n - 1]);
      StepClocked(c, gap, states[n - 1], events[n - 1], states[n]);
    }
  }

  /** Once taken the lock stands for a full lease. */
  lemma {:induction false} LockStands(c: Config, states: seq<State>, events: seq<Event>, i: nat, n: nat)
    requires TimelyRun(c, states, events) && i < n < |states| && Locks(states[i], events[i])
    ensures states[n].lock.Some? && states[n].lock.value >= events[i].at + c.lease
    decreases n
  {
    hide Apply, Timely;
    assert Next(c, states[n - 1], events[n - 1], states[n]) && Timely(c, states[n - 1], events[n - 1]);
    LockStep(c, states[n - 1], events[n - 1], states[n]);
    if i < n - 1 {
      LockStands(c, states, events, i, n - 1);
    }
  }

  /** Two acquisitions are at least a lease apart. */
  lemma AcquisitionSpacing(c: Config, states: seq<State>, events: seq<Event>, i: nat, j: nat)
    requires TimelyRun(c, states, events) && i < j < |events|
    requires Locks(states[i], events[i]) && Locks(states[j], events[j])
    ensures events[j].at - events[i].at >= c.lease
  {
    hide Apply, Timely;
    LockStands(c, states, events, i, j);
  }

  /** Taken or standing, the lock covers the attempts. */
  lemma LockCovers(c: Config, s: State, e: Event, s': State, t: real)
    requires Next(c, s, e, s') && Timely(c, s, e) && Sensible(c)
    requires if Locks(s, e) then e.at == t else s.lock == Some(t + c.lease) && s.attempted <= t + c.lease
    ensures s'.lock == Some(t + c.lease) && s'.attempted <= t + c.lease
  {
    hide Apply;
    LockStep(c, s, e, s');
  }

  /** Until the lock is taken again at most a lease plus a gap goes by. */
  lemma {:induction false} AcquisitionGap(c: Config, gap: real, start: real, states: seq<State>, events: seq<Event>,
                                          i: nat, n: nat)
    requires AttentiveRun(c, gap, states, events) && states[0] == Initial(start) && i < n < |states|
    requires Locks(states[i], events[i])
    requires forall k :: i < k < n ==> !Locks(states[k], events[k])
    ensures states[n].lock == Some(events[i].at + c.lease)
    ensures states[n].attempted <= events[i].at + c.lease
    ensures states[n].now <= events[i].at + c.lease + gap
    decreases n
  {
    hide Apply, Inv, Timely, Enabled, Acquires, Initial;
    RunClocked(c, gap, start, states, events, n);
    assert Next(c, states[n - 1], events[n - 1], states[n]) && Timely(c, states[n - 1], events[n - 1]);
    if i < n - 1 {
      AcquisitionGap(c, gap, start, states, events, i, n - 1);
    }
    LockCovers(c, states[n - 1], events[n - 1], states[n], events[i].at);
  }

  // ---------------------------------------------------------------- a stranded entry

  /** A stranded entry is touched by sweeps only: one that keeps it leaves it stamped. */
  lemma SweepStranded(c: Config, s: State, at: real, id: JobId)
    requires Inv(c, s) && Stranded(s, id) && at <= s.now
    ensures var before, st' := at - c.lease, Sweep(s.store, at - c.lease, at);
      && id in s.store.jobs && id in st'.jobs
      && (id in st'.processing <==> Judge(Some(s.store.jobs[id]), before) in {Grace, Keep})
      && (id !in st'.processing ==> id in st'.queue)
      && (id in st'.processing && s.store.jobs[id].claimedAt.None? ==> st'.jobs[id].claimedAt == Some(At(at)))
      && (id in st'.processing && s.store.jobs[id].claimedAt.Some? ==> st'.jobs[id] == s.store.jobs[id])
  {
    hide SweepFrom;
    var st' := Sweep(s.store, at - c.lease, at);
    assert Settled(s, id);
    assert id in multiset(s.store.processing);
    OneLink(s, id);
    SweepSingle(s.store, at - c.lease, at, id);
    assert multiset(s.store.processing)[id] == 1;
    assert id in st'.processing <==> multiset(st'.processing)[id] > 0;
    assert id in st'.queue <==> multiset(st'.queue)[id] > 0;
  }

  lemma OtherSteps(c: Config, s: State, e: Event, s': State, id: JobId)
    requires Inv(c, s) && Stranded(s, id) && Next(c, s, e, s') && id !in s'.past.expired
    requires !e.SweepNow? && !Acquired(s, e)
    ensures Stranded(s', id) && Lookup(s'.store, id) == Lookup(s.store, id)
  {
    hide Sweep, SweepCuts, RemoveFirst, Delivery.Inv, Live;
    Delivery.StepPast(c, s, e);
    assert Settled(s, id);
    assert id in multiset(s.store.processing);
    OneLinkOf(c, s, id);
    match e {
      case Enqueue(_, _) =>
      case Pop(w) => assert s.store.queue[0] in multiset(s.store.queue); assert id !in multiset(s.store.queue);
      case Drop(w) => RemoveOther(s.store.processing, s.claims[w].job, id);
      case Finish(w, _) => RemoveOther(s.store.processing, s.claims[w].job, id);
      case _ =>
    }
  }

  lemma OneLinkOf(c: Config, s: State, id: JobId)
    requires Inv(c, s) && id !in s.past.expired && s.store.Links(id) > 0
    ensures s.store.Links(id) == 1
  {
    OneLink(s, id);
  }

  /** The only way out of being stranded is back to the waiting list, by a sweep. */
  lemma LeavesToQueue(c: Config, s: State, e: Event, s': State, id: JobId)
    requires Inv(c, s) && Stranded(s, id) && Next(c, s, e, s') && Timely(c, s, e)
    requires id !in s'.past.expired && !Stranded(s', id)
    ensures Sweeps(s, e) && id in s'.store.queue
  {
    hide Sweep, SweepCuts, RemoveFirst, Inv;
    if e.SweepNow? || Acquired(s, e) {
      SweepStranded(c, s, e.at, id);
    } else {
      OtherSteps(c, s, e, s', id);
    }
  }

  // ---------------------------------------------------------------- its stamp

  /** When the entry was stamped. */
  ghost function StampOf(s: State, id: JobId): Option<real> {
    if id !in s.store.jobs || s.store.jobs[id].claimedAt.None? then None
    else Some(s.store.jobs[id].claimedAt.value.Seconds())
  }

  /** A sweep requeues a stamped entry exactly if its clock reading is at least a lease after the stamp. */
  lemma RequeuedExactly(c: Config, s: State, e: Event, s': State, id: JobId)
    requires Inv(c, s) && Stranded(s, id) && Next(c, s, e, s') && Timely(c, s, e) && Sweeps(s, e)
    requires StampOf(s, id).Some?
    ensures id in s'.store.queue <==> e.at >= StampOf(s, id).value + c.lease
    ensures id in s'.store.queue <==> id !in s'.store.processing
  {
    hide Sweep, SweepCuts, RemoveFirst, Delivery.Inv, Live;
    SweepStranded(c, s, e.at, id);
    StrandedOnce(c, s, e.at, id);
  }

  lemma StrandedOnce(c: Config, s: State, at: real, id: JobId)
    requires Inv(c, s) && Stranded(s, id) && at <= s.now
    ensures var st' := Sweep(s.store, at - c.lease, at); id in st'.queue <==> id !in st'.processing
  {
    hide SweepFrom;
    var st' := Sweep(s.store, at - c.lease, at);
    assert id in multiset(s.store.processing);
    OneLink(s, id);
    SweepSingle(s.store, at - c.lease, at, id);
    assert id in st'.processing <==> multiset(st'.processing)[id] > 0;
    assert id in st'.queue <==> multiset(st'.queue)[id] > 0;
  }

  /** While the entry stays stranded its stamp stays, and every sweep leaves it stamped, less than a lease ago. */
  lemma StampStep(c: Config, s: State, e: Event, s': State, id: JobId)
    requires Inv(c, s) && Next(c, s, e, s') && Timely(c, s, e) && Stranded(s, id) && Stranded(s', id)
    ensures StampOf(s, id).Some? ==> StampOf(s', id) == StampOf(s, id)
    ensures Sweeps(s, e) ==>
      && StampOf(s', id).Some? && StampOf(s', id).value <= s.now
      && (StampOf(s, id).Some? ==> StampOf(s, id).value > e.at - c.lease)
      && (StampOf(s, id).None? ==> StampOf(s', id).value == e.at)
  {
    hide Sweep, SweepCuts, RemoveFirst, Delivery.Inv, Live;
    if Sweeps(s, e) {
      assert Settled(s, id);
      SweepStranded(c, s, e.at, id);
    } else {
      OtherSteps(c, s, e, s', id);
    }
  }

  lemma {:induction false} StampStays(c: Config, start: real, states: seq<State>, events: seq<Event>, j: nat, k: nat,
                                      id: JobId)
    requires TimelyRun(c, states, events) && states[0] == Initial(start) && j <= k < |states|
    requires (forall l :: j <= l <= k ==> Stranded(states[l], id)) && StampOf(states[j], id).Some?
    ensures StampOf(states[k], id) == StampOf(states[j], id)
    decreases k
  {
    hide Apply, Inv, Stranded, Timely, StampOf;
    if j < k {
      StampStays(c, start, states, events, j, k - 1, id);
      InitialInv(c, start);
      RunInv(c, states, events, k - 1);
      assert Next(c, states[k - 1], events[k - 1], states[k]) && Timely(c, states[k - 1], events[k - 1]);
      assert Stranded(states[k - 1], id) && Stranded(states[k], id);
      StampStep(c, states[k - 1], events[k - 1], states[k], id);
    }
  }

  /**
    Over every run: an unstamped entry that a sweep graced, and that no sweep has taken
    back since, is requeued by a later one exactly if that one's clock reading is at
    least a lease after the gracing one's.
  */
  lemma GracedRequeuedExactly(c: Config, start: real, states: seq<State>, events: seq<Event>, j: nat, k: nat, id: JobId)
    requires TimelyRun(c, states, events) && states[0] == Initial(start) && j < k < |events|
    requires forall l :: j <= l <= k ==> Stranded(states[l], id)
    requires StampOf(states[j], id).None? && Sweeps(states[j], events[j]) && Sweeps(states[k], events[k])
    ensures id in states[k + 1].store.queue <==> events[k].at >= events[j].at + c.lease
  {
    hide Apply, Inv, Stranded, Timely, StampOf;
    InitialInv(c, start);
    RunInv(c, states, events, j);
    RunInv(c, states, events, k);
    assert Next(c, states[j], events[j], states[j + 1]) && Timely(c, states[j], events[j]);
    assert Next(c, states[k], events[k], states[k + 1]) && Timely(c, states[k], events[k]);
    assert Stranded(states[j], id) && Stranded(states[j + 1], id) && Stranded(states[k], id);
    StampStep(c, states[j], events[j], states[j + 1], id);
    StampStays(c, start, states, events, j + 1, k, id);
    RequeuedExactly(c, states[k], events[k], states[k + 1], id);
  }

  // ---------------------------------------------------------------- locks and the stamp

  /** The lock was last taken, if at all, by time `t`. */
  ghost predicate Paced(c: Config, s: State, t: real) {
    && (s.lock.Some? ==> s.lock.value <= t + c.lease)
    && s.attempted <= t + c.lease
  }

  lemma Pacing(c: Config, gap: real, s: State, e: Event, s': State, t: real)
    requires Clocked(c, gap, s) && Next(c, s, e, s') && Timely(c, s, e) && Sensible(c) && Paced(c, s, t)
    ensures s.now <= t + (c.lease + gap)
    ensures Paced(c, s', if Locks(s, e) then s.now else t)
    ensures s'.lock == if Locks(s, e) then Some(s.now + c.lease) else s.lock
  {
    hide Apply;
    LockStep(c, s, e, s');
  }

  /** A number of leases, up to two. */
  function Leases(c: Config, age: nat): real { if age == 0 then 0.0 else if age == 1 then c.lease else 2.0 * c.lease }

  /**
    Once a lock is served the entry is stamped by then.  With `age` more locks since,
    the last of them at `t`, the stamp is that many leases older, and while the entry is
    still there at most one more lock has been served: never one with a lease to spare.
  */
  ghost predicate Marked(c: Config, delay: real, y: Tally, t: real, age: nat, stamp: Option<real>) {
    && age <= 2
    && (y.served > 0 ==>
          && stamp.Some? && stamp.value <= t + delay - Leases(c, age)
          && y.served <= (if delay == 0.0 || age == 0 then 1 else 2)
          && (y.waiting ==> age >= 1 && (age == 1 ==> y.served == 1)))
  }

  lemma MarkedStep(c: Config, delay: real, s: State, e: Event, y: Tally, t: real, age: nat, stamp: Option<real>,
                   stamp': Option<real>)
    returns (age': nat)
    requires 0.0 <= delay <= c.lease && 0.0 < c.lease && Marked(c, delay, y, t, age, stamp)
    requires y.Taken() > 0 ==> s.lock == Some(t + c.lease)
    requires e.Recover? || e.TakeLock? ==> e.at == s.now
    requires stamp.Some? ==> stamp' == stamp
    requires Sweeps(s, e) ==>
      stamp'.Some? && stamp'.value <= s.now && (stamp.Some? ==> stamp.value > e.at - c.lease)
    ensures Marked(c, delay, Tallied(c, delay, y, s, e), if Locks(s, e) then s.now else t, age', stamp')
  {
    if y.served == 0 {
      age' := 0;
    } else if Locks(s, e) {
      age' := if age < 2 then age + 1 else 2;
    } else {
      age' := age;
    }
  }

  /** Where the locks and the stamp stand at state n, the entry being stranded since state i. */
  ghost predicate Stage(c: Config, gap: real, delay: real, s: State, y: Tally, t0: real, t: real, age: nat, id: JobId) {
    && Paced(c, s, t)
    && t <= t0 + Span(c, gap, y.Taken())
    && (y.Taken() > 0 ==> s.lock == Some(t + c.lease))
    && Marked(c, delay, y, t, age, StampOf(s, id))
  }

  lemma OneClock(c: Config, s: State, e: Event)
    requires Inv(c, s) && Timely(c, s, e)
    ensures Sensible(c) && (e.Recover? || e.TakeLock? ==> e.at == s.now)
  {
  }

  lemma TakenStep(c: Config, delay: real, y: Tally, s: State, e: Event)
    ensures Tallied(c, delay, y, s, e).Taken() == y.Taken() + if Locks(s, e) then 1 else 0
  {
  }

  lemma StageStep(c: Config, gap: real, delay: real, s: State, e: Event, s': State, y: Tally, t0: real, t: real,
                  age: nat, id: JobId)
    returns (t': real, age': nat)
    requires Inv(c, s) && Clocked(c, gap, s) && Next(c, s, e, s') && Timely(c, s, e) && Stranded(s, id)
    requires Stranded(s', id)
    requires 0.0 <= delay <= c.lease && Stage(c, gap, delay, s, y, t0, t, age, id)
    ensures Stage(c, gap, delay, s', Tallied(c, delay, y, s, e), t0, t', age', id)
  {
    hide Apply, Stranded, StampOf, Paced, Clocked, Inv, Timely, Span, Marked, Acquired, LocksOnly, Tallied, Enabled;
    OneClock(c, s, e);
    TakenStep(c, delay, y, s, e);
    Pacing(c, gap, s, e, s', t);
    StampStep(c, s, e, s', id);
    age' := MarkedStep(c, delay, s, e, y, t, age, StampOf(s, id), StampOf(s', id));
    t' := if Locks(s, e) then s.now else t;
    SpanStep(c, gap, y.Taken());
  }

  lemma {:induction false} Stages(c: Config, gap: real, delay: real, start: real,
                                  states: seq<State>, events: seq<Event>, i: nat, n: nat, id: JobId)
    returns (t: real, age: nat)
    requires AttentiveRun(c, gap, states, events) && states[0] == Initial(start) && i <= n < |states|
    requires (forall k :: i <= k <= n ==> Stranded(states[k], id)) && 0.0 <= delay <= c.lease
    ensures Stage(c, gap, delay, states[n], Count(c, delay, states, events, i, n), states[i].now, t, age, id)
    decreases n
  {
    hide Apply, Inv, Stranded, Timely, Tallied, StampOf, Clocked, Initial, Enabled, Span, Paced, Stage;
    RunClocked(c, gap, start, states, events, n);
    if n == i {
      t, age := states[n].now, 0;
      StageStart(c, gap, delay, states[n], Count(c, delay, states, events, i, n), id);
    } else {
      RunClocked(c, gap, start, states, events, n - 1);
      var s, e, s' := states[n - 1], events[n - 1], states[n];
      assert Next(c, s, e, s') && Timely(c, s, e);
      assert Stranded(s, id) && Stranded(s', id);
      t, age := Stages(c, gap, delay, start, states, events, i, n - 1, id);
      var y := Count(c, delay, states, events, i, n - 1);
      t, age := StageStep(c, gap, delay, s, e, s', y, states[i].now, t, age, id);
    }
  }

  lemma SpanStep(c: Config, gap: real, k: nat)
    ensures k == 0 ==> Span(c, gap, k) == 0.0
    ensures Span(c, gap, k + 1) == Span(c, gap, k) + (c.lease + gap)
  {
  }

  lemma TimeBound(c: Config, gap: real, t0: real, t: real, now: real, k: nat, m: nat)
    requires k + 1 <= m && 0.0 <= c.lease + gap
    requires (t <= t0 + Span(c, gap, k) && now <= t + (c.lease + gap)) || now <= t0 + Span(c, gap, k + 1)
    ensures now <= t0 + m as real * (c.lease + gap)
  {
    hide Span;
    SpanStep(c, gap, k);
    SpanGrows(c, gap, k + 1, m);
    SpanIs(c, gap, m);
  }

  lemma PacedUntil(c: Config, gap: real, s: State, t: real)
    requires Clocked(c, gap, s) && Paced(c, s, t)
    ensures s.now <= t + (c.lease + gap)
  {
  }

  lemma StageStart(c: Config, gap: real, delay: real, s: State, y: Tally, id: JobId)
    requires Clocked(c, gap, s) && Sensible(c) && y.Taken() == 0
    ensures Stage(c, gap, delay, s, y, s.now, s.now, 0, id)
  {
    hide StampOf, Span;
    SpanStep(c, gap, y.Taken());
  }

  /** A lock that still waits at state m is lost by state n, or its script came in time, which bounds the time at m. */
  lemma {:induction false} WaitingEnds(c: Config, delay: real, states: seq<State>, events: seq<Event>, i: nat,
                                       m: nat, n: nat)
    requires TimelyRun(c, states, events) && i <= m <= n < |states|
    ensures var y, z := Count(c, delay, states, events, i, m), Count(c, delay, states, events, i, n);
      && y.lost <= z.lost && states[m].now <= states[n].now
      && (y.waiting && states[m].lock.Some? ==>
            || y.lost < z.lost
            || states[m].now <= states[m].lock.value - c.lease + delay
            || (z.waiting && states[n].lock == states[m].lock))
    decreases n
  {
    hide Apply, Enabled, Acquires;
    if m < n {
      WaitingEnds(c, delay, states, events, i, m, n - 1);
      assert Next(c, states[n - 1], events[n - 1], states[n]) && Timely(c, states[n - 1], events[n - 1]);
      LockStep(c, states[n - 1], events[n - 1], states[n]);
    }
  }

  /** Up to which time the entry can be stranded, by the locks lost up to a later state n. */
  lemma StrandedUntil(c: Config, gap: real, delay: real, start: real, states: seq<State>, events: seq<Event>,
                      i: nat, m: nat, n: nat, id: JobId, f: nat)
    requires AttentiveRun(c, gap, states, events) && states[0] == Initial(start) && i <= m <= n < |states|
    requires (forall k :: i <= k <= m ==> Stranded(states[k], id)) && 0.0 <= delay <= c.lease
    requires Count(c, delay, states, events, i, n).Lost() <= f
    ensures Count(c, delay, states, events, i, m).served < Rounds(delay)
    ensures states[m].now <= states[i].now + (Rounds(delay) + f) as real * (c.lease + gap) + delay
  {
    hide Apply, Inv, Stranded, Timely, StampOf, Paced, Clocked, Initial, Count, Next, Span;
    var t, age := Stages(c, gap, delay, start, states, events, i, m, id);
    RunClocked(c, gap, start, states, events, m);
    PacedUntil(c, gap, states[m], t);
    WaitingEnds(c, delay, states, events, i, m, n);
    var y := Count(c, delay, states, events, i, m);
    assert y.lost <= f && y.served < Rounds(delay);
    if y.waiting && y.lost == f {
      assert states[m].now <= t + delay;
      TimeBound(c, gap, states[i].now, t, t, y.Taken() - 1, Rounds(delay) + f);
    } else {
      TimeBound(c, gap, states[i].now, t, states[m].now, y.Taken(), Rounds(delay) + f);
    }
  }

  /** The first state at or after `i` in which the entry is no longer stranded, if it comes by `n`. */
  lemma {:induction false} FirstExit(states: seq<State>, i: nat, n: nat, id: JobId) returns (m: nat)
    requires i <= n < |states| && Stranded(states[i], id)
    ensures i < m <= n + 1
    ensures forall k :: i <= k < m ==> Stranded(states[k], id)
    ensures m <= n ==> !Stranded(states[m], id)
    decreases n
  {
    hide Stranded;
    if n == i {
      m := i + 1;
    } else {
      m := FirstExit(states, i, n - 1, id);
      if m == n && Stranded(states[n], id) { m := n + 1; }
    }
  }

  /** The entry came back to the waiting list between `i` and `n`, by a sweep, no later than `deadline`. */
  ghost predicate RequeuedBetween(states: seq<State>, i: nat, n: nat, id: JobId, deadline: real)
    requires n < |states|
  {
    exists m :: i < m <= n && Returned(states, i, m, id) && states[m].now <= deadline
  }

  ghost predicate Returned(states: seq<State>, i: nat, m: nat, id: JobId)
    requires m < |states|
  {
    id in states[m].store.queue && forall k :: i <= k < m ==> Stranded(states[k], id)
  }

  lemma ExitReturns(c: Config, gap: real, delay: real, start: real, states: seq<State>, events: seq<Event>,
                    i: nat, n: nat, m: nat, id: JobId, f: nat)
    requires AttentiveRun(c, gap, states, events) && states[0] == Initial(start) && i < m <= n < |states|
    requires (forall k :: i <= k < m ==> Stranded(states[k], id)) && !Stranded(states[m], id) && 0.0 <= delay <= c.lease
    requires id !in states[n].past.expired && Count(c, delay, states, events, i, n).Lost() <= f
    ensures Returned(states, i, m, id) && Sweeps(states[m - 1], events[m - 1])
    ensures states[m].now <= states[i].now + (Rounds(delay) + f) as real * (c.lease + gap) + delay
  {
    hide Apply, Inv, Stranded, Timely, Count;
    RunClocked(c, gap, start, states, events, m - 1);
    assert Stranded(states[m - 1], id);
    assert Next(c, states[m - 1], events[m - 1], states[m]) && Timely(c, states[m - 1], events[m - 1]);
    Delivery.PastGrows(c, states, events, m, n);
    LeavesToQueue(c, states[m - 1], events[m - 1], states[m], id);
    LockStep(c, states[m - 1], events[m - 1], states[m]);
    StrandedUntil(c, gap, delay, start, states, events, i, m - 1, n, id, f);
  }

  /**
    Bounded recovery: with at most f lost locks the entry is requeued within 2 + f times
    the lease plus gap if lock and script fall on one clock reading, and within 3 + f
    times that and the delay otherwise.
  */
  lemma RecoveredInTime(c: Config, gap: real, delay: real, start: real, states: seq<State>, events: seq<Event>,
                        i: nat, n: nat, id: JobId, f: nat)
    requires AttentiveRun(c, gap, states, events) && states[0] == Initial(start) && i <= n < |states|
    requires Stranded(states[i], id) && id !in states[n].past.expired
    requires 0.0 <= delay <= c.lease && Count(c, delay, states, events, i, n).Lost() <= f
    requires states[n].now > states[i].now + (Rounds(delay) + f) as real * (c.lease + gap) + delay
    ensures RequeuedBetween(states, i, n, id, states[i].now + (Rounds(delay) + f) as real * (c.lease + gap) + delay)
  {
    hide Apply, Inv, Stranded, Timely, Returned, Count;
    var m := FirstExit(states, i, n, id);
    if m <= n {
      ExitReturns(c, gap, delay, start, states, events, i, n, m, id, f);
    } else {
      StrandedUntil(c, gap, delay, start, states, events, i, n, n, id, f);
    }
  }

  /** Two served locks, or three, are enough, however much time they take. */
  lemma EnoughSweepsRequeue(c: Config, gap: real, delay: real, start: real, states: seq<State>, events: seq<Event>,
                            i: nat, n: nat, id: JobId, f: nat)
    requires AttentiveRun(c, gap, states, events) && states[0] == Initial(start) && i <= n < |states|
    requires Stranded(states[i], id) && id !in states[n].past.expired
    requires 0.0 <= delay <= c.lease && Count(c, delay, states, events, i, n).Lost() <= f
    requires Count(c, delay, states, events, i, n).served >= Rounds(delay)
    ensures RequeuedBetween(states, i, n, id, states[i].now + (Rounds(delay) + f) as real * (c.lease + gap) + delay)
  {
    hide Apply, Inv, Stranded, Timely, Returned, Count;
    var m := FirstExit(states, i, n, id);
    if m <= n {
      ExitReturns(c, gap, delay, start, states, events, i, n, m, id, f);
    } else {
      StrandedUntil(c, gap, delay, start, states, events, i, n, n, id, f);
    }
  }
}
