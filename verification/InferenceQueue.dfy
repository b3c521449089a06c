/**
  The bounded asynchronous inference queue: two Redis lists, one hash per job
  and a recovery lease.  Each round trip to Redis is a function on the stored
  value; `RedisInferenceQueue` performs them in place.
*/
module InferenceQueue {
  import opened Redis

  datatype JobId = JobId(text: string)
  type Payload = string  // the canonical JSON text of a request

  datatype Status = Queued | Running | Succeeded | Failed {
    predicate Terminal() { Succeeded? || Failed? }
  }

  /** The `claimed_at` field is text: it either parses as a time or it does not. */
  datatype Stamp = At(time: real) | Unreadable {
    function Seconds(): real { if At? then time else 0.0 }
  }

  /** One job hash.  `ttl` says whether the key currently has an expiry. */
  datatype JobRecord = JobRecord(
    status: Status,
    payload: Option<Payload>,
    claimedAt: Option<Stamp>,
    result: Option<string>,
    error: Option<string>,
    ttl: bool)

  datatype Store = Store(queue: seq<JobId>, processing: seq<JobId>, jobs: map<JobId, JobRecord>) {
    /** How often an id is linked, over both lists. */
    function Links(id: JobId): nat { multiset(queue)[id] + multiset(processing)[id] }
  }

  datatype EnqueueReply = Created | Unchanged | Full | Conflict

  datatype Outcome = Success(result: Option<string>) | Failure(error: string) {
    function Status(): Status { if Success? then Succeeded else Failed }
  }

  // ---------------------------------------------------------------- one round trip each

  function Reply(st: Store, id: JobId, payload: Payload, capacity: int): EnqueueReply {
    if id in st.jobs then if st.jobs[id].payload != Some(payload) then Conflict else Unchanged
    else if |st.queue| >= capacity then Full
    else Created
  }

  function Enqueued(st: Store, id: JobId, payload: Payload, capacity: int): Store {
    if Reply(st, id, payload, capacity) != Created then st
    else
      st.(queue := st.queue + [id],
          jobs := st.jobs[id := JobRecord(Queued, Some(payload), None, None, None, true)])
  }

  /** BLMOVE from the head of the queue to the tail of the processing list. */
  function Popped(st: Store): Store
    requires st.queue != []
  {
    st.(queue := st.queue[1..], processing := st.processing + [st.queue[0]])
  }

  function Lookup(st: Store, id: JobId): Option<JobRecord> {
    if id in st.jobs then Some(st.jobs[id]) else None
  }

  /** HSET starts from an empty hash when the key is gone; such a key has no expiry. */
  function Existing(st: Store, id: JobId): JobRecord {
    if id in st.jobs then st.jobs[id] else JobRecord(Queued, None, None, None, None, false)
  }

  function Unlinked(st: Store, id: JobId): Store {
    st.(processing := RemoveFirst(st.processing, id))
  }

  function Stamped(st: Store, id: JobId, at: real): Store {
    st.(jobs := st.jobs[id := Existing(st, id).(status := Running, claimedAt := Some(At(at)))])
  }

  /** The MULTI/EXEC of `finish`: HSET, EXPIRE and LREM as one unit. */
  function Finished(st: Store, id: JobId, outcome: Outcome): Store {
    var rec := Existing(st, id).(status := outcome.Status(), ttl := true);
    var settled := match outcome
      case Success(result) => if result.Some? then rec.(result := result) else rec
      case Failure(error) => rec.(error := Some(error));
    Unlinked(st.(jobs := st.jobs[id := settled]), id)
  }

  // ---------------------------------------------------------------- the recovery sweep

  datatype Verdict = Unlink | Grace | Keep | Requeue

  /** What the sweep decides about one processing entry. */
  function Judge(rec: Option<JobRecord>, before: real): Verdict {
    if rec.None? || rec.value.status.Terminal() then Unlink
    else if rec.value.claimedAt.None? then Grace
    else if rec.value.claimedAt.value.Seconds() <= before then Requeue
    else Keep
  }

  /** What a verdict does to the job record. */
  function Swept(rec: JobRecord, verdict: Verdict, now: real): JobRecord {
    match verdict
    case Grace => rec.(claimedAt := Some(At(now)))
    case Requeue => rec.(status := Queued, claimedAt := None)
    case _ => rec
  }

  /** One iteration of the sweep. */
  function SweepOne(st: Store, id: JobId, before: real, now: real): Store {
    match Judge(Lookup(st, id), before)
    case Unlink => Unlinked(st, id)
    case Keep => st
    case Grace => st.(jobs := st.jobs[id := Swept(st.jobs[id], Grace, now)])
    case Requeue =>
      if id !in st.processing then st
      else
        st.(processing := RemoveFirst(st.processing, id),
            queue := st.queue + [id],
            jobs := st.jobs[id := Swept(st.jobs[id], Requeue, now)])
  }

  /** The sweep over the rest of a snapshot; the lists may hold an id more than once. */
  function SweepFrom(st: Store, ids: seq<JobId>, before: real, now: real): Store
    decreases |ids|
  {
    if ids == [] then st else SweepFrom(SweepOne(st, ids[0], before, now), ids[1..], before, now)
  }

  function Sweep(st: Store, before: real, now: real): Store {
    SweepFrom(st, st.processing, before, now)
  }

  // ---------------------------------------------------------------- what the sweep means

  /** The ids of a list that get a verdict in `wanted`, in list order. */
  function Select(jobs: map<JobId, JobRecord>, ids: seq<JobId>, before: real, wanted: set<Verdict>): (r: seq<JobId>)
    ensures forall id :: id in r <==> id in ids && Judge(Lookup(Store([], [], jobs), id), before) in wanted
    ensures |r| <= |ids|
  {
    if ids == [] then []
    else
      var rest := Select(jobs, ids[1..], before, wanted);
      if Judge(Lookup(Store([], [], jobs), ids[0]), before) in wanted then [ids[0]] + rest else rest
  }

  function SweptJobs(jobs: map<JobId, JobRecord>, ids: seq<JobId>, before: real, now: real): map<JobId, JobRecord> {
    map id | id in jobs ::
      if id in ids then Swept(jobs[id], Judge(Some(jobs[id]), before), now) else jobs[id]
  }

  /** The sweep of a duplicate-free list, said without a loop. */
  function SweepSpec(st: Store, before: real, now: real): Store {
    Store(
      st.queue + Select(st.jobs, st.processing, before, {Requeue}),
      Select(st.jobs, st.processing, before, {Grace, Keep}),
      SweptJobs(st.jobs, st.processing, before, now))
  }

  lemma {:induction false} SelectFrame(jobs: map<JobId, JobRecord>, jobs': map<JobId, JobRecord>,
                                       ids: seq<JobId>, before: real, wanted: set<Verdict>)
    requires forall id :: id in ids ==> Lookup(Store([], [], jobs), id) == Lookup(Store([], [], jobs'), id)
    ensures Select(jobs, ids, before, wanted) == Select(jobs', ids, before, wanted)
  {
    if ids != [] {
      assert ids[0] in ids;
      SelectFrame(jobs, jobs', ids[1..], before, wanted);
    }
  }

  lemma DistinctSplit(kept: seq<JobId>, h: JobId, rest: seq<JobId>)
    requires Distinct(kept + [h] + rest)
    ensures h !in kept && h !in rest && Distinct(kept + rest)
  {
    var whole := kept + [h] + rest;
    assert whole[|kept|] == h;
    forall k | 0 <= k < |rest| ensures rest[k] != h { assert whole[|kept| + 1 + k] == rest[k]; }
    forall k | 0 <= k < |kept| ensures kept[k] != h { assert whole[k] == kept[k]; }
    forall i, j | 0 <= i < j < |kept + rest| ensures (kept + rest)[i] != (kept + rest)[j] {
      var i' := if i < |kept| then i else i + 1;
      var j' := if j < |kept| then j else j + 1;
      assert whole[i'] == (kept + rest)[i] && whole[j'] == (kept + rest)[j];
    }
  }

  /** The job table after one iteration. */
  function JobsAfter(jobs: map<JobId, JobRecord>, h: JobId, before: real, now: real): map<JobId, JobRecord> {
    if h in jobs then jobs[h := Swept(jobs[h], Judge(Some(jobs[h]), before), now)] else jobs
  }

  lemma SweptJobsStep(jobs: map<JobId, JobRecord>, h: JobId, rest: seq<JobId>, before: real, now: real)
    requires h !in rest
    ensures SweptJobs(JobsAfter(jobs, h, before, now), rest, before, now) == SweptJobs(jobs, [h] + rest, before, now)
  {
  }

  lemma SweepOneEffect(st: Store, kept: seq<JobId>, h: JobId, rest: seq<JobId>, before: real, now: real)
    requires st.processing == kept + [h] + rest && h !in kept
    ensures var verdict := Judge(Lookup(st, h), before);
      SweepOne(st, h, before, now) == Store(
        st.queue + (if verdict == Requeue then [h] else []),
        if verdict in {Grace, Keep} then kept + [h] + rest else kept + rest,
        JobsAfter(st.jobs, h, before, now))
  {
    hide RemoveFirst;
    RemoveFirstAfter(kept, h, rest);
    assert h in st.processing;
    assert st.queue + [] == st.queue;
    if h in st.jobs { assert st.jobs[h := st.jobs[h]] == st.jobs; }
  }

  lemma SelectAfter(jobs: map<JobId, JobRecord>, h: JobId, rest: seq<JobId>, before: real, now: real,
                    wanted: set<Verdict>)
    requires h !in rest
    ensures Select(JobsAfter(jobs, h, before, now), rest, before, wanted) == Select(jobs, rest, before, wanted)
  {
    SelectFrame(JobsAfter(jobs, h, before, now), jobs, rest, before, wanted);
  }

  lemma SelectCons(st: Store, h: JobId, rest: seq<JobId>, before: real, wanted: set<Verdict>)
    ensures Select(st.jobs, [h] + rest, before, wanted)
         == (if Judge(Lookup(st, h), before) in wanted then [h] else []) + Select(st.jobs, rest, before, wanted)
  {
    assert ([h] + rest)[1..] == rest;
  }

  lemma SweepNothing(st: Store, kept: seq<JobId>, before: real, now: real)
    ensures st.queue + Select(st.jobs, [], before, {Requeue}) == st.queue
    ensures kept + Select(st.jobs, [], before, {Grace, Keep}) == kept
    ensures SweptJobs(st.jobs, [], before, now) == st.jobs
  {
  }

  /** The loop over the rest of the snapshot, when `kept` are the entries already passed over. */
  lemma {:induction false} SweepFromDistinct(st: Store, kept: seq<JobId>, ids: seq<JobId>, before: real, now: real)
    requires st.processing == kept + ids && Distinct(kept + ids)
    ensures SweepFrom(st, ids, before, now) == Store(
      st.queue + Select(st.jobs, ids, before, {Requeue}),
      kept + Select(st.jobs, ids, before, {Grace, Keep}),
      SweptJobs(st.jobs, ids, before, now))
    decreases |ids|
  {
    hide SweepOne, Judge, SweptJobs, JobsAfter, Distinct, Lookup, Select;
    if ids == [] {
      SweepNothing(st, kept, before, now);
    } else {
      var h, rest := ids[0], ids[1..];
      var st1 := SweepOne(st, h, before, now);
      assert kept + ids == kept + [h] + rest && ids == [h] + rest;
      DistinctSplit(kept, h, rest);
      SweepOneEffect(st, kept, h, rest, before, now);
      SweptJobsStep(st.jobs, h, rest, before, now);
      SelectAfter(st.jobs, h, rest, before, now, {Requeue});
      SelectAfter(st.jobs, h, rest, before, now, {Grace, Keep});
      SelectCons(st, h, rest, before, {Requeue});
      SelectCons(st, h, rest, before, {Grace, Keep});
      var requeued, stays := Select(st.jobs, rest, before, {Requeue}), Select(st.jobs, rest, before, {Grace, Keep});
      if Judge(Lookup(st, h), before) in {Grace, Keep} {
        SweepFromDistinct(st1, kept + [h], rest, before, now);
        assert kept + [h] + stays == kept + ([h] + stays);
        assert st.queue + [] + requeued == st.queue + ([] + requeued);
      } else {
        SweepFromDistinct(st1, kept, rest, before, now);
        assert [] + stays == stays;
        assert st.queue + [h] + requeued == st.queue + ([h] + requeued);
        assert st.queue + [] + requeued == st.queue + ([] + requeued);
      }
    }
  }

  /** Sweep refinement: on a duplicate-free processing list the loop is `SweepSpec`. */
  lemma SweepRefines(st: Store, before: real, now: real)
    requires Distinct(st.processing)
    ensures Sweep(st, before, now) == SweepSpec(st, before, now)
    ensures forall id :: id in st.jobs && st.jobs[id].status.Terminal() ==>
              Lookup(Sweep(st, before, now), id) == Some(st.jobs[id])
  {
    assert [] + st.processing == st.processing;
    SweepFromDistinct(st, [], st.processing, before, now);
    var kept := Select(st.jobs, st.processing, before, {Grace, Keep});
    assert [] + kept == kept;
  }

  // ---------------------------------------------------------------- the sweep seen from one id

  lemma SweepOneFrame(st: Store, h: JobId, before: real, now: real, id: JobId)
    requires id != h
    ensures var st' := SweepOne(st, h, before, now);
      && Lookup(st', id) == Lookup(st, id)
      && multiset(st'.queue)[id] == multiset(st.queue)[id]
      && multiset(st'.processing)[id] == multiset(st.processing)[id]
  {
    hide RemoveFirst;
  }

  /** Ids the snapshot does not name are untouched, whatever else it names how often. */
  lemma {:induction false} SweepFrame(st: Store, ids: seq<JobId>, before: real, now: real, id: JobId)
    requires id !in ids
    ensures var st' := SweepFrom(st, ids, before, now);
      && Lookup(st', id) == Lookup(st, id)
      && multiset(st'.queue)[id] == multiset(st.queue)[id]
      && multiset(st'.processing)[id] == multiset(st.processing)[id]
    decreases |ids|
  {
    hide SweepOne, Lookup;
    if ids != [] {
      assert ids[0] in ids;
      SweepOneFrame(st, ids[0], before, now, id);
      SweepFrame(SweepOne(st, ids[0], before, now), ids[1..], before, now, id);
    }
  }

  /** The verdict on `id`, carried out once. */
  ghost predicate GotVerdict(st: Store, st': Store, before: real, now: real, id: JobId) {
    var verdict := Judge(Lookup(st, id), before);
    && Lookup(st', id) == (if id in st.jobs then Some(Swept(st.jobs[id], verdict, now)) else None)
    && multiset(st'.queue)[id] == multiset(st.queue)[id] + (if verdict == Requeue then 1 else 0)
    && multiset(st'.processing)[id] + (if verdict in {Requeue, Unlink} then 1 else 0) == multiset(st.processing)[id]
  }

  lemma SweepOneVerdict(st: Store, before: real, now: real, id: JobId)
    requires id in st.processing
    ensures GotVerdict(st, SweepOne(st, id, before, now), before, now, id)
  {
    hide RemoveFirst;
    assert multiset(st.processing)[id] > 0;
  }

  lemma VerdictFrame(st: Store, mid: Store, st': Store, before: real, now: real, id: JobId)
    requires Lookup(mid, id) == Lookup(st, id)
    requires multiset(mid.queue)[id] == multiset(st.queue)[id]
    requires multiset(mid.processing)[id] == multiset(st.processing)[id]
    requires GotVerdict(mid, st', before, now, id)
    ensures GotVerdict(st, st', before, now, id)
  {
  }

  /** An id the snapshot names once gets exactly its verdict. */
  lemma {:induction false} SweepOnce(st: Store, ids: seq<JobId>, before: real, now: real, id: JobId)
    requires multiset(ids)[id] == 1 && id in st.processing
    ensures GotVerdict(st, SweepFrom(st, ids, before, now), before, now, id)
    decreases |ids|
  {
    hide SweepOne, Lookup, Swept, Judge;
    var st1 := SweepOne(st, ids[0], before, now);
    assert ids == [ids[0]] + ids[1..];
    if ids[0] == id {
      assert id !in multiset(ids[1..]);
      SweepOneVerdict(st, before, now, id);
      SweepFrame(st1, ids[1..], before, now, id);
      assert (id in st1.jobs) == Lookup(st1, id).Some? by { LookupSome(st1, id); }
    } else {
      SweepOneFrame(st, ids[0], before, now, id);
      assert id in multiset(st1.processing);
      SweepOnce(st1, ids[1..], before, now, id);
      VerdictFrame(st, st1, SweepFrom(st1, ids[1..], before, now), before, now, id);
    }
  }

  lemma LookupSome(st: Store, id: JobId)
    ensures (id in st.jobs) == Lookup(st, id).Some?
  {
  }

  ghost predicate SameRecords(jobs: map<JobId, JobRecord>, jobs': map<JobId, JobRecord>) {
    && jobs'.Keys == jobs.Keys
    && forall id :: id in jobs ==>
         && jobs'[id].payload == jobs[id].payload
         && jobs'[id].ttl == jobs[id].ttl
         && (jobs[id].status.Terminal() ==> jobs'[id] == jobs[id])
         && (jobs'[id].status.Terminal() ==> jobs[id].status.Terminal())
  }

  lemma SweepOneKeepsRecords(st: Store, h: JobId, before: real, now: real)
    ensures SameRecords(st.jobs, SweepOne(st, h, before, now).jobs)
  {
    hide RemoveFirst;
  }

  lemma SameRecordsTrans(a: map<JobId, JobRecord>, b: map<JobId, JobRecord>, c: map<JobId, JobRecord>)
    requires SameRecords(a, b) && SameRecords(b, c)
    ensures SameRecords(a, c)
  {
  }

  /** A sweep never adds or drops a job record, rewrites a payload or changes a terminal record. */
  lemma {:induction false} SweepKeepsRecords(st: Store, ids: seq<JobId>, before: real, now: real)
    ensures SameRecords(st.jobs, SweepFrom(st, ids, before, now).jobs)
    decreases |ids|
  {
    hide SweepOne;
    if ids != [] {
      var st1 := SweepOne(st, ids[0], before, now);
      SweepOneKeepsRecords(st, ids[0], before, now);
      SweepKeepsRecords(st1, ids[1..], before, now);
      SameRecordsTrans(st.jobs, st1.jobs, SweepFrom(st1, ids[1..], before, now).jobs);
    }
  }

  /** How many links of each id the terminal-or-expired branch cuts. */
  function SweepCuts(st: Store, ids: seq<JobId>, before: real, now: real): multiset<JobId>
    decreases |ids|
  {
    if ids == [] then multiset{}
    else
      (if Judge(Lookup(st, ids[0]), before) == Unlink && ids[0] in st.processing then multiset{ids[0]} else multiset{})
      + SweepCuts(SweepOne(st, ids[0], before, now), ids[1..], before, now)
  }

  lemma SweepOneConserves(st: Store, h: JobId, before: real, now: real)
    ensures var st', cut := SweepOne(st, h, before, now),
        if Judge(Lookup(st, h), before) == Unlink && h in st.processing then multiset{h} else multiset{};
      multiset(st'.queue) + multiset(st'.processing) + cut == multiset(st.queue) + multiset(st.processing)
  {
    hide RemoveFirst;
    assert h in st.processing <==> multiset(st.processing)[h] > 0;
  }

  /** Every link the sweep meets is cut, moved or left: none appears and none is lost. */
  lemma {:induction false} SweepConserves(st: Store, ids: seq<JobId>, before: real, now: real)
    ensures var st' := SweepFrom(st, ids, before, now);
      multiset(st'.queue) + multiset(st'.processing) + SweepCuts(st, ids, before, now)
        == multiset(st.queue) + multiset(st.processing)
    decreases |ids|
  {
    hide SweepOne, Judge, Lookup;
    if ids != [] {
      var st1 := SweepOne(st, ids[0], before, now);
      SweepOneConserves(st, ids[0], before, now);
      SweepConserves(st1, ids[1..], before, now);
    }
  }

  /** The sweep only appends to the queue. */
  lemma {:induction false} SweepAppends(st: Store, ids: seq<JobId>, before: real, now: real)
    ensures st.queue <= SweepFrom(st, ids, before, now).queue
    decreases |ids|
  {
    if ids != [] {
      SweepAppends(SweepOne(st, ids[0], before, now), ids[1..], before, now);
    }
  }

  // ---------------------------------------------------------------- what a sweep appends

  /** The stranded ids of a list that are not in `done`, each once, by first occurrence. */
  function Strays(jobs: map<JobId, JobRecord>, ids: seq<JobId>, before: real, done: set<JobId>): (r: seq<JobId>)
    ensures forall id :: id in r <==>
              id in ids && id !in done && Judge(Lookup(Store([], [], jobs), id), before) == Requeue
    ensures Distinct(r)
    decreases |ids|
  {
    if ids == [] then []
    else if ids[0] in done || Judge(Lookup(Store([], [], jobs), ids[0]), before) != Requeue then
      Strays(jobs, ids[1..], before, done)
    else [ids[0]] + Strays(jobs, ids[1..], before, done + {ids[0]})
  }

  /** `done` have been requeued; of the others, those stranded at the start still are. */
  ghost predicate Midway(jobs: map<JobId, JobRecord>, st: Store, before: real, done: set<JobId>) {
    forall id :: Judge(Lookup(st, id), before) == Requeue <==>
      id !in done && Judge(Lookup(Store([], [], jobs), id), before) == Requeue
  }

  /** A second visit to a requeued entry only stamps it, and a stamp of now is not stranded. */
  lemma MidwayStep(jobs: map<JobId, JobRecord>, st: Store, h: JobId, before: real, now: real, done: set<JobId>)
    requires Midway(jobs, st, before, done) && h in st.processing && before < now
    ensures var requeues := Judge(Lookup(st, h), before) == Requeue;
      && Midway(jobs, SweepOne(st, h, before, now), before, if requeues then done + {h} else done)
      && SweepOne(st, h, before, now).queue == st.queue + (if requeues then [h] else [])
  {
    hide RemoveFirst;
    assert st.queue + [] == st.queue;
  }

  lemma {:induction false} SweepFromStrays(jobs: map<JobId, JobRecord>, st: Store, ids: seq<JobId>, before: real,
                                           now: real, done: set<JobId>)
    requires Midway(jobs, st, before, done) && multiset(ids) <= multiset(st.processing) && before < now
    ensures SweepFrom(st, ids, before, now).queue == st.queue + Strays(jobs, ids, before, done)
    decreases |ids|
  {
    hide SweepOne, Judge, Lookup;
    if ids == [] {
      assert st.queue + [] == st.queue;
    } else {
      var h, rest := ids[0], ids[1..];
      assert ids == [h] + rest;
      SnapshotStaysLinked(st, h, rest, before, now);
      MidwayStep(jobs, st, h, before, now, done);
      var requeues := Judge(Lookup(st, h), before) == Requeue;
      var done' := if requeues then done + {h} else done;
      SweepFromStrays(jobs, SweepOne(st, h, before, now), rest, before, now, done');
      var strays := Strays(jobs, rest, before, done');
      assert st.queue + [h] + strays == st.queue + ([h] + strays);
      assert st.queue + [] + strays == st.queue + strays;
    }
  }

  /**
    Whatever the processing list holds how often, a sweep appends each stranded id
    once, in order of first occurrence, and nothing else.
  */
  lemma SweepRequeuesOnce(st: Store, before: real, now: real)
    requires before < now || Distinct(st.processing)
    ensures Sweep(st, before, now).queue == st.queue + Strays(st.jobs, st.processing, before, {})
  {
    hide SweepFrom, Strays, Select;
    if before < now {
      SweepFromStrays(st.jobs, st, st.processing, before, now, {});
    } else {
      SweepRefines(st, before, now);
      SelectStrays(st.jobs, st.processing, before, {});
    }
  }

  lemma {:induction false} SelectStrays(jobs: map<JobId, JobRecord>, ids: seq<JobId>, before: real, done: set<JobId>)
    requires Distinct(ids) && forall id :: id in ids ==> id !in done
    ensures Strays(jobs, ids, before, done) == Select(jobs, ids, before, {Requeue})
    decreases |ids|
  {
    if ids != [] {
      assert ids[0] in ids && ids[0] !in ids[1..];
      forall id | id in ids[1..] ensures id !in done + {ids[0]} { assert id in ids; }
      SelectStrays(jobs, ids[1..], before, done);
      SelectStrays(jobs, ids[1..], before, done + {ids[0]});
    }
  }

  /** What is left of the snapshot stays linked, so the guarded LREM always finds its entry. */
  lemma SnapshotStaysLinked(st: Store, id: JobId, rest: seq<JobId>, before: real, now: real)
    requires multiset([id] + rest) <= multiset(st.processing)
    ensures id in st.processing
    ensures multiset(rest) <= multiset(SweepOne(st, id, before, now).processing)
  {
    assert multiset([id] + rest) == multiset{id} + multiset(rest);
    assert multiset(st.processing)[id] >= 1;
  }

  // ---------------------------------------------------------------- what becomes of an entry

  /** The job is over, or its key is gone. */
  predicate Over(rec: Option<JobRecord>) { rec.None? || rec.value.status == Succeeded || rec.value.status == Failed }

  /** The claim is at least a lease old; a stamp that does not parse counts as time zero. */
  predicate Overdue(rec: JobRecord, before: real) {
    rec.claimedAt.Some? && (if rec.claimedAt.value.At? then rec.claimedAt.value.time else 0.0) <= before
  }

  /**
    What a sweep makes of an id, by the fields of its record, when the processing list
    holds it `visits` times: what is over is unlinked altogether; what has no stamp gets
    one; what is overdue moves to the queue once, and is stamped again if it is still
    listed; anything else stays as it is.
  */
  ghost predicate Fate(st: Store, st': Store, before: real, now: real, id: JobId, visits: nat) {
    var rec := Lookup(st, id);
    var n, n', q, q' := multiset(st.processing)[id], multiset(st'.processing)[id],
        multiset(st.queue)[id], multiset(st'.queue)[id];
    if visits == 0 then n' == n && q' == q && Lookup(st', id) == rec
    else if Over(rec) then n' + visits == n && q' == q && Lookup(st', id) == rec
    else if rec.value.claimedAt.None? then
      n' == n && q' == q && Lookup(st', id) == Some(rec.value.(claimedAt := Some(At(now))))
    else if Overdue(rec.value, before) then
      && n' + 1 == n && q' == q + 1
      && Lookup(st', id)
         == Some(rec.value.(status := Queued, claimedAt := if visits == 1 then None else Some(At(now))))
    else n' == n && q' == q && Lookup(st', id) == rec
  }

  lemma FateFrame(st: Store, mid: Store, st': Store, before: real, now: real, id: JobId, visits: nat)
    requires Lookup(mid, id) == Lookup(st, id)
    requires multiset(mid.queue)[id] == multiset(st.queue)[id]
    requires multiset(mid.processing)[id] == multiset(st.processing)[id]
    requires Fate(mid, st', before, now, id, visits)
    ensures Fate(st, st', before, now, id, visits)
  {
  }

  lemma OneVisit(st: Store, before: real, now: real, id: JobId)
    requires id in st.processing
    ensures Fate(st, SweepOne(st, id, before, now), before, now, id, 1)
  {
    hide SweepOne;
    SweepOneVerdict(st, before, now, id);
  }

  /** One visit, and then the rest of them. */
  lemma FateStep(st: Store, mid: Store, st': Store, before: real, now: real, id: JobId, visits: nat)
    requires before < now && Fate(st, mid, before, now, id, 1) && Fate(mid, st', before, now, id, visits)
    ensures Fate(st, st', before, now, id, visits + 1)
  {
    hide Lookup;
  }

  lemma {:induction false} SweepFromFate(st: Store, ids: seq<JobId>, before: real, now: real, id: JobId)
    requires multiset(ids) <= multiset(st.processing) && before < now
    ensures Fate(st, SweepFrom(st, ids, before, now), before, now, id, multiset(ids)[id])
    decreases |ids|
  {
    hide SweepOne, Fate, Lookup;
    if ids == [] {
      NoVisit(st, before, now, id);
    } else {
      var h, rest := ids[0], ids[1..];
      assert ids == [h] + rest;
      var st1 := SweepOne(st, h, before, now);
      SnapshotStaysLinked(st, h, rest, before, now);
      SweepFromFate(st1, rest, before, now, id);
      if h == id {
        OneVisit(st, before, now, id);
        FateStep(st, st1, SweepFrom(st1, rest, before, now), before, now, id, multiset(rest)[id]);
      } else {
        SweepOneFrame(st, h, before, now, id);
        FateFrame(st, st1, SweepFrom(st1, rest, before, now), before, now, id, multiset(rest)[id]);
      }
    }
  }

  lemma NoVisit(st: Store, before: real, now: real, id: JobId)
    ensures Fate(st, st, before, now, id, 0)
  {
  }

  /** The sweep, for every id and for lists that name ids more than once, by the fields of the records. */
  lemma SweepFate(st: Store, before: real, now: real, id: JobId)
    requires before < now
    ensures Fate(st, Sweep(st, before, now), before, now, id, multiset(st.processing)[id])
  {
    hide SweepFrom, Fate;
    SweepFromFate(st, st.processing, before, now, id);
  }

  lemma {:induction false} OverUnlinked(st: Store, ids: seq<JobId>, before: real, now: real, id: JobId)
    requires Over(Lookup(st, id)) && multiset(ids) <= multiset(st.processing)
    ensures Lookup(SweepFrom(st, ids, before, now), id) == Lookup(st, id)
    ensures multiset(SweepFrom(st, ids, before, now).processing)[id] + multiset(ids)[id] == multiset(st.processing)[id]
    decreases |ids|
  {
    if ids != [] {
      var h, rest := ids[0], ids[1..];
      assert ids == [h] + rest;
      SnapshotStaysLinked(st, h, rest, before, now);
      if h != id { SweepOneFrame(st, h, before, now, id); }
      OverUnlinked(SweepOne(st, h, before, now), rest, before, now, id);
    }
  }

  /** After a sweep, with any clock readings, the processing list holds unfinished jobs with a record only. */
  lemma SweepLeavesUnfinished(st: Store, before: real, now: real)
    ensures forall id :: id in Sweep(st, before, now).processing ==> !Over(Lookup(st, id))
  {
    hide SweepFrom, Over;
    forall id | id in Sweep(st, before, now).processing ensures !Over(Lookup(st, id)) {
      assert multiset(Sweep(st, before, now).processing)[id] > 0;
      if Over(Lookup(st, id)) { OverUnlinked(st, st.processing, before, now, id); }
    }
  }

  // ---------------------------------------------------------------- the queue object

  /** The contract of a sweep. */
  lemma SweepSays(st: Store, before: real, now: real)
    ensures st.queue <= Sweep(st, before, now).queue
    ensures forall id :: id in Sweep(st, before, now).processing ==> !Over(Lookup(st, id))
    ensures before < now ==>
              forall id :: Fate(st, Sweep(st, before, now), before, now, id, multiset(st.processing)[id])
    ensures Distinct(st.processing) ==> Sweep(st, before, now) == SweepSpec(st, before, now)
  {
    hide SweepFrom, Fate, Over, SweepSpec;
    SweepAppends(st, st.processing, before, now);
    SweepLeavesUnfinished(st, before, now);
    if before < now {
      forall id ensures Fate(st, Sweep(st, before, now), before, now, id, multiset(st.processing)[id]) {
        SweepFate(st, before, now, id);
      }
    }
    if Distinct(st.processing) { SweepRefines(st, before, now); }
  }

  datatype ClaimReply = Nothing | Claimed(id: JobId, payload: Payload) | Invalid

  /** `claim` when nothing comes between its round trips. */
  function ClaimedStore(st: Store, now: real): Store {
    if st.queue == [] then st
    else
      var id, st1 := st.queue[0], Popped(st);
      if id !in st.jobs || st.jobs[id].status.Terminal() then Unlinked(st1, id) else Stamped(st1, id, now)
  }

  class RedisInferenceQueue {
    var queue: seq<JobId>
    var processing: seq<JobId>
    var jobs: map<JobId, JobRecord>
    var lease: Option<real>  // when the recovery lock expires
    const capacity: int
    const leaseSeconds: real

    constructor (capacity: int, leaseSeconds: real)
      ensures Contents() == Store([], [], map[]) && lease == None
      ensures this.capacity == capacity && this.leaseSeconds == leaseSeconds
    {
      this.capacity, this.leaseSeconds := capacity, leaseSeconds;
      queue, processing, jobs, lease := [], [], map[], None;
    }

    function Contents(): Store
      reads this
    {
      Store(queue, processing, jobs)
    }

    method Enqueue(id: JobId, payload: Payload) returns (r: EnqueueReply)
      modifies this`queue, this`jobs
      ensures r == Reply(old(Contents()), id, payload, capacity)
      ensures Contents() == Enqueued(old(Contents()), id, payload, capacity)
      ensures r == Created <==> id !in old(jobs) && |old(queue)| < capacity
      ensures r == Full <==> id !in old(jobs) && |old(queue)| >= capacity
      ensures r == Unchanged <==> id in old(jobs) && old(jobs)[id].payload == Some(payload)
      ensures r == Conflict <==> id in old(jobs) && old(jobs)[id].payload != Some(payload)
      ensures r == Created ==>
                && queue == old(queue) + [id]
                && jobs == old(jobs)[id := JobRecord(Queued, Some(payload), None, None, None, true)]
      ensures r != Created ==> queue == old(queue) && jobs == old(jobs)
    {
      if id in jobs {
        if jobs[id].payload != Some(payload) {
          return Conflict;
        }
        return Unchanged;
      }
      if |queue| >= capacity {
        return Full;
      }
      jobs := jobs[id := JobRecord(Queued, Some(payload), None, None, None, true)];
      queue := queue + [id];
      return Created;
    }

    method Claim(now: real) returns (r: ClaimReply)
      modifies this`queue, this`processing, this`jobs
      ensures Contents() == ClaimedStore(old(Contents()), now)
      ensures old(queue) == [] ==> r == Nothing && Contents() == old(Contents())
      ensures old(queue) != [] ==>
        var id := old(queue)[0];
        var rec := if id in old(jobs) then Some(old(jobs)[id]) else None;
        && queue == old(queue)[1..]
        && (Over(rec) ==>
              r == Nothing && jobs == old(jobs) && processing == RemoveFirst(old(processing) + [id], id))
        // A record without its payload raises after it was stamped.
        && (!Over(rec) ==>
              && processing == old(processing) + [id]
              && jobs == old(jobs)[id := rec.value.(status := Running, claimedAt := Some(At(now)))]
              && r == if rec.value.payload.None? then Invalid else Claimed(id, rec.value.payload.value))
    {
      if queue == [] {
        return Nothing;
      }
      var id := queue[0];
      queue, processing := queue[1..], processing + [id];
      if id !in jobs || jobs[id].status.Terminal() {
        processing := RemoveFirst(processing, id);
        return Nothing;
      }
      var seen := jobs[id];
      jobs := jobs[id := seen.(status := Running, claimedAt := Some(At(now)))];
      if seen.payload.None? {
        return Invalid;
      }
      return Claimed(id, seen.payload.value);
    }

    method Finish(id: JobId, outcome: Outcome)
      modifies this`processing, this`jobs
      ensures Contents() == Finished(old(Contents()), id, outcome)
      ensures processing == RemoveFirst(old(processing), id)
      ensures id in jobs && jobs == old(jobs)[id := jobs[id]] && jobs[id].ttl
      ensures outcome.Success? ==>
                jobs[id].status == Succeeded && (outcome.result.Some? ==> jobs[id].result == outcome.result)
      ensures outcome.Failure? ==> jobs[id].status == Failed && jobs[id].error == Some(outcome.error)
      ensures id in old(jobs) ==>
                && jobs[id].payload == old(jobs)[id].payload && jobs[id].claimedAt == old(jobs)[id].claimedAt
                && (outcome.Success? ==> jobs[id].error == old(jobs)[id].error)
                && (outcome == Success(None) || outcome.Failure? ==> jobs[id].result == old(jobs)[id].result)
      ensures id !in old(jobs) ==> jobs[id].payload == None && jobs[id].claimedAt == None
    {
      var rec := Existing(Contents(), id).(status := outcome.Status());
      match outcome {
        case Success(result) => if result.Some? { rec := rec.(result := result); }
        case Failure(error) => rec := rec.(error := Some(error));
      }
      jobs := jobs[id := rec.(ttl := true)];
      processing := RemoveFirst(processing, id);
    }

    /** `SET NX EX` on the lock, then the sweep script, at one clock reading. */
    method RecoverProcessing(now: real) returns (recovered: nat)
      modifies this`queue, this`processing, this`jobs, this`lease
      ensures var acquired := old(lease).None? || old(lease).value <= now;
        && (!acquired ==> recovered == 0 && lease == old(lease) && Contents() == old(Contents()))
        && (acquired ==>
              && lease == Some(now + leaseSeconds)
              && Contents() == Sweep(old(Contents()), now - leaseSeconds, now)
              && recovered == |queue| - |old(queue)|)
        && (acquired && Distinct(old(processing)) ==>
              && Contents() == SweepSpec(old(Contents()), now - leaseSeconds, now)
              && queue == old(queue) + Select(old(jobs), old(processing), now - leaseSeconds, {Requeue})
              && recovered == |Select(old(jobs), old(processing), now - leaseSeconds, {Requeue})|)
        && (acquired ==>
              && old(queue) <= queue
              && (forall id :: id in processing ==> !Over(Lookup(old(Contents()), id)))
              && (leaseSeconds > 0.0 ==>
                    forall id :: Fate(old(Contents()), Contents(), now - leaseSeconds, now, id,
                                      multiset(old(processing))[id])))
    {
      hide Sweep, Fate, Over, Select;
      if lease.Some? && now < lease.value {
        return 0;
      }
      lease := Some(now + leaseSeconds);
      recovered := SweepScript(now - leaseSeconds, now);
      ghost var was := old(Contents());
      SweepSays(was, now - leaseSeconds, now);
    }

    /** The Lua loop: it walks a snapshot while it edits the live lists and hashes. */
    method SweepScript(before: real, now: real) returns (recovered: nat)
      modifies this`queue, this`processing, this`jobs
      ensures Contents() == Sweep(old(Contents()), before, now)
      ensures recovered == |queue| - |old(queue)|
    {
      hide SweepOne;
      recovered := 0;
      var ids := processing;
      var i := 0;
      while i < |ids|
        invariant 0 <= i <= |ids|
        invariant SweepFrom(Contents(), ids[i..], before, now) == Sweep(old(Contents()), before, now)
        invariant recovered == |queue| - |old(queue)|
        invariant multiset(ids[i..]) <= multiset(processing)
      {
        assert ids[i..] == [ids[i]] + ids[i + 1..];
        SnapshotStaysLinked(Contents(), ids[i], ids[i + 1..], before, now);
        var count := SweepEntry(ids[i], before, now);
        recovered := recovered + count;
        i := i + 1;
      }
      assert ids[i..] == [];
    }

    /** The body of that loop. */
    method SweepEntry(id: JobId, before: real, now: real) returns (count: nat)
      modifies this`queue, this`processing, this`jobs
      ensures Contents() == SweepOne(old(Contents()), id, before, now)
      ensures id in old(processing) ==> Fate(old(Contents()), Contents(), before, now, id, 1)
      ensures count == |queue| - |old(queue)|
    {
      hide RemoveFirst, Fate;
      if id in processing { OneVisit(Contents(), before, now, id); }
      count := 0;
      if id !in jobs || jobs[id].status.Terminal() {
        processing := RemoveFirst(processing, id);
      } else if jobs[id].claimedAt.None? {
        jobs := jobs[id := jobs[id].(claimedAt := Some(At(now)))];
      } else {
        var ts := match jobs[id].claimedAt.value case At(t) => t case Unreadable => 0.0;
        if ts <= before {
          var shorter := RemoveFirst(processing, id);
          var removed := |processing| - |shorter|;
          processing := shorter;
          if removed == 1 {
            jobs := jobs[id := jobs[id].(status := Queued, claimedAt := None)];
            queue := queue + [id];
            count := 1;
          } else {
            RemoveAbsent(old(processing), id);
          }
        }
      }
    }
  }
}
