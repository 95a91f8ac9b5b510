/** Exact accounting of live entries: with at most one worker per entry at a time, every entry is in
    exactly one place, and retries are bounded. */
module Leases {
  import opened Options
  import opened StreamIds
  import opened Delivery

  /** A delivery is only taken up when no other worker has the entry. */
  predicate Exclusive(q: Queue, e: Event) {
    e.ReadNew? || e.Reclaim? ==> forall t :: t in q.tasks ==> q.tasks[t].id != e.id
  }

  ghost predicate ExclusiveRun(limit: int, trace: seq<Event>) {
    trace == [] ||
    (var n := |trace| - 1;
     ExclusiveRun(limit, trace[..n]) && Exclusive(After(limit, trace[..n]), trace[n]))
  }

  // --------------------------------------------------------------------- the partition

  /** Every entry is live, acknowledged or dead-lettered, never two of them, and has one grave. */
  predicate Partition(live: map<Id, Fields>, acked: set<Id>, everBuried: map<Id, Grave>, buried: map<Id, Id>) {
    && live.Keys !! acked && live.Keys !! buried.Keys && acked !! buried.Keys
    && (forall g :: g in everBuried ==> everBuried[g].original in buried && buried[everBuried[g].original] == g)
    && |everBuried| == |buried|
  }

  predicate Partitioned(q: Queue) {
    Partition(q.stream.live, q.h.acked, q.h.everBuried, q.h.buried)
  }

  /** A worker ends a delivery whose entry another worker has already taken out of the stream. */
  predicate EndsLate(q: Queue, e: Event) {
    || (e.Bury? && e.t in q.tasks && q.tasks[e.t].phase == Doomed && Less(q.dead.last, e.grave)
        && q.tasks[e.t].id !in q.stream.live)
    || (e.Ack? && e.t in q.tasks && q.tasks[e.t].phase == Settled && q.tasks[e.t].id in q.h.buried)
  }

  lemma AppendPartition(q: Queue, id: Id, fields: Fields)
    requires Kept(q) && Partitioned(q) && Less(q.stream.last, id)
    ensures Partitioned(Appended(q, id, fields))
  {
    FreshIds(q, id, ZERO);
  }

  lemma BuryPartition(live: map<Id, Fields>, acked: set<Id>, everBuried: map<Id, Grave>, buried: map<Id, Id>,
                      grave: Id, g: Grave)
    requires Partition(live, acked, everBuried, buried) && grave !in everBuried
    requires g.original in live || g.original in acked || g.original in buried
    requires g.original in buried ==>
              buried[g.original] in everBuried && everBuried[buried[g.original]].original == g.original
    ensures Partition(live - {g.original}, acked, everBuried[grave := g], buried[g.original := grave]) <==>
              g.original in live
  {
    var id := g.original;
    if id in buried {
      var old_ := buried[id];
      assert old_ in everBuried[grave := g] && everBuried[grave := g][old_].original == id;
      assert buried[id := grave][id] != old_;
    } else if id in acked {
      assert id in acked * buried[id := grave].Keys;
    }
  }

  lemma AckPartition(live: map<Id, Fields>, acked: set<Id>, everBuried: map<Id, Grave>, buried: map<Id, Id>, id: Id)
    requires Partition(live, acked, everBuried, buried)
    ensures Partition(live - {id}, acked + {id}, everBuried, buried) <==> id !in buried
  {
    if id in buried {
      assert id in (acked + {id}) * buried.Keys;
    }
  }

  lemma OutsidePartition(q: Queue, e: Event, after: Queue)
    requires Kept(q) && Partitioned(q) && !OfTask(e) && after == OutsideStep(q, e)
    ensures Partitioned(after)
  {
    match e
    case Enqueue(key, id) =>
      if after != q {
        AppendPartition(q, id, Fields(Some(Job(key)), None));
      }
    case ForeignEntry(fields, id) =>
      if after != q {
        AppendPartition(q, id, fields);
      }
    case Replay(dlq, request, evidence, id) =>
      if after != q {
        AppendPartition(q, id, Fields(evidence.payload, Some(Context(dlq, request))));
      }
    case _ =>
  }

  lemma AckStepPartition(q: Queue, t: nat, task: Task, after: Queue)
    requires Partitioned(q) && t in q.tasks && q.tasks[t] == task && after == AckStep(q, t, task)
    ensures Partitioned(after) <==> !EndsLate(q, Ack(t))
  {
    AckPartition(q.stream.live, q.h.acked, q.h.everBuried, q.h.buried, task.id);
  }

  lemma BuryStepPartition(q: Queue, t: nat, task: Task, grave: Id, after: Queue)
    requires Kept(q) && Partitioned(q) && t in q.tasks && q.tasks[t] == task && after == BuryStep(q, t, task, grave)
    ensures Partitioned(after) <==> !EndsLate(q, Bury(t, grave))
  {
    if after != q {
      assert TaskKept(task, q.stream.cursor, q.h.appended, q.h.settled);
      FreshIds(q, ZERO, grave);
      BuryPartition(q.stream.live, q.h.acked, q.h.everBuried, q.h.buried, grave,
          Grave(task.id, task.fields, task.attempt));
    }
  }

  lemma WorkingPartition(q: Queue, e: Event, t: nat, task: Task, after: Queue)
    requires Kept(q) && t in q.tasks && q.tasks[t] == task && after == TaskStep(q, e, t, task)
    requires !e.Ack? && !e.Bury?
    ensures Partitioned(after) == Partitioned(q)
  {
    assert TaskKept(task, q.stream.cursor, q.h.appended, q.h.settled);
    if !e.Heartbeat? {
      WorkingShape(q, e, t, task, after);
    }
  }

  lemma TaskPartition(q: Queue, e: Event, t: nat, task: Task, after: Queue)
    requires Kept(q) && Partitioned(q) && t in q.tasks && q.tasks[t] == task && OfTask(e) && e.t == t
    requires after == TaskStep(q, e, t, task)
    ensures Partitioned(after) <==> !EndsLate(q, e)
  {
    match e
    case Ack(_) => AckStepPartition(q, t, task, after);
    case Bury(_, grave) => BuryStepPartition(q, t, task, grave, after);
    case _ => WorkingPartition(q, e, t, task, after);
  }

  /** Exactly when a step breaks the partition: when it is a late end. */
  lemma PartitionKeptIff(q: Queue, e: Event, after: Queue)
    requires Kept(q) && Partitioned(q) && after == Next(q, e)
    ensures Partitioned(after) <==> !EndsLate(q, e)
  {
    if !OfTask(e) {
      OutsidePartition(q, e, after);
    } else if e.t in q.tasks {
      TaskPartition(q, e, e.t, q.tasks[e.t], after);
    }
  }

  // ----------------------------------------------------------------------- leases held

  /** Distinct tasks work on distinct entries, each still pending with this delivery's count. */
  predicate Held(pending: map<Id, Lease>, tasks: map<nat, Task>) {
    && (forall t, u :: t in tasks && u in tasks && tasks[t].id == tasks[u].id ==> t == u)
    && (forall t :: t in tasks ==> HoldsLease(pending, tasks[t]))
  }

  predicate HoldsLease(pending: map<Id, Lease>, task: Task) {
    && task.id in pending
    && (task.phase != Claiming ==> pending[task.id].count == task.attempt)
  }

  lemma OutsideShape(q: Queue, e: Event, after: Queue)
    requires !OfTask(e) && !e.ReadNew? && !e.Reclaim? && after == OutsideStep(q, e)
    ensures after.tasks == q.tasks && after.stream.pending == q.stream.pending && after.limit == q.limit
    ensures after.stream.cursor == q.stream.cursor && after.h.failures == q.h.failures
  {
  }

  lemma TakeHeld(pending: map<Id, Lease>, tasks: map<nat, Task>, t: nat, task: Task, lease: Lease)
    requires Held(pending, tasks) && t !in tasks
    requires forall u :: u in tasks ==> tasks[u].id != task.id
    requires task.phase != Claiming ==> lease.count == task.attempt
    ensures Held(pending[task.id := lease], tasks[t := task])
  {
  }

  lemma OutsideHeld(q: Queue, e: Event, after: Queue)
    requires Held(q.stream.pending, q.tasks) && Exclusive(q, e) && !OfTask(e) && after == OutsideStep(q, e)
    ensures Held(after.stream.pending, after.tasks)
  {
    if !e.ReadNew? && !e.Reclaim? {
      OutsideShape(q, e, after);
    } else if after != q {
      TakeHeld(q.stream.pending, q.tasks, e.t, after.tasks[e.t], after.stream.pending[e.id]);
    }
  }

  lemma EndHeld(pending: map<Id, Lease>, tasks: map<nat, Task>, t: nat)
    requires Held(pending, tasks) && t in tasks
    ensures Held(pending - {tasks[t].id}, tasks - {t})
    ensures Held(pending, tasks - {t})
  {
  }

  lemma KeepHeld(pending: map<Id, Lease>, tasks: map<nat, Task>, t: nat, task: Task)
    requires Held(pending, tasks) && t in tasks && task.id == tasks[t].id && HoldsLease(pending, task)
    ensures Held(pending, tasks[t := task])
  {
  }

  lemma HoldingIsLive(q: Queue, t: nat)
    requires Kept(q) && Held(q.stream.pending, q.tasks) && t in q.tasks
    ensures q.tasks[t].id in q.stream.pending && q.tasks[t].id in q.stream.live
  {
    assert HoldsLease(q.stream.pending, q.tasks[t]);
  }

  lemma WorkingHeld(q: Queue, e: Event, t: nat, task: Task, after: Queue)
    requires Held(q.stream.pending, q.tasks) && t in q.tasks && q.tasks[t] == task
    requires task.phase in {Working, Admitted, InGraph, Raised, Settled} ==> Parses(task.fields)
    requires !e.Ack? && !e.Bury? && !e.Heartbeat? && after == TaskStep(q, e, t, task)
    ensures Held(after.stream.pending, after.tasks)
  {
    assert HoldsLease(q.stream.pending, task);
    WorkingShape(q, e, t, task, after);
    if t in after.tasks {
      LeaseShape(q, e, t, task, after);
      KeepHeld(q.stream.pending, q.tasks, t, after.tasks[t]);
    } else {
      EndHeld(q.stream.pending, q.tasks, t);
    }
  }

  lemma TaskHeld(q: Queue, e: Event, t: nat, task: Task, after: Queue)
    requires Kept(q) && Held(q.stream.pending, q.tasks) && t in q.tasks && q.tasks[t] == task
    requires after == TaskStep(q, e, t, task)
    ensures Held(after.stream.pending, after.tasks)
  {
    if e.Ack? || e.Bury? {
      EndHeld(q.stream.pending, q.tasks, t);
    } else if e.Heartbeat? {
      assert HoldsLease(q.stream.pending, task);
    } else {
      assert TaskKept(task, q.stream.cursor, q.h.appended, q.h.settled);
      WorkingHeld(q, e, t, task, after);
    }
  }

  lemma LeaseShape(q: Queue, e: Event, t: nat, task: Task, after: Queue)
    requires t in q.tasks && q.tasks[t] == task && HoldsLease(q.stream.pending, task)
    requires after == TaskStep(q, e, t, task) && t in after.tasks
    ensures after.tasks[t].id == task.id && HoldsLease(after.stream.pending, after.tasks[t])
  {
  }

  lemma StepHeld(q: Queue, e: Event, after: Queue)
    requires Kept(q) && Held(q.stream.pending, q.tasks) && Exclusive(q, e) && after == Next(q, e)
    requires Partitioned(q)
    ensures Held(after.stream.pending, after.tasks)
    ensures !EndsLate(q, e)
  {
    if !OfTask(e) {
      OutsideHeld(q, e, after);
    } else if e.t in q.tasks {
      HoldingIsLive(q, e.t);
      TaskHeld(q, e, e.t, q.tasks[e.t], after);
    }
  }

  // ------------------------------------------------------------------------ retry bound

  function MaxFailures(limit: int): nat {
    if limit > 1 then limit - 1 else 0
  }

  /** An entry has failed fewer times than it was delivered, and never more than the limit allows. */
  predicate Bounded(limit: int, s: Stream, tasks: map<nat, Task>, h: History) {
    && (forall id :: id in h.failures ==>
          && AtMost(id, s.cursor) && h.failures[id] <= MaxFailures(limit)
          && (id in s.pending ==> h.failures[id] <= s.pending[id].count))
    && (forall t :: t in tasks ==> FailsLess(s.pending, tasks[t], h))
  }

  predicate FailsLess(pending: map<Id, Lease>, task: Task, h: History) {
    task.id in pending && FailuresOf(h, task.id) < pending[task.id].count
  }

  lemma ReadNewBounded(q: Queue, t: nat, id: Id, after: Queue)
    requires Kept(q) && Held(q.stream.pending, q.tasks) && Bounded(q.limit, q.stream, q.tasks, q.h)
    requires Exclusive(q, ReadNew(t, id)) && after == ReadNewStep(q, t, id)
    ensures Bounded(q.limit, after.stream, after.tasks, after.h)
  {
    if after != q {
      assert id !in q.h.failures;
      forall u | u in after.tasks ensures FailsLess(after.stream.pending, after.tasks[u], q.h) {
        if u != t {
          assert FailsLess(q.stream.pending, q.tasks[u], q.h);
        }
      }
    }
  }

  lemma ReclaimBounded(q: Queue, t: nat, id: Id, after: Queue)
    requires Kept(q) && Held(q.stream.pending, q.tasks) && Bounded(q.limit, q.stream, q.tasks, q.h)
    requires Exclusive(q, Reclaim(t, id)) && after == ReclaimStep(q, t, id)
    ensures Bounded(q.limit, after.stream, after.tasks, after.h)
  {
    if after != q {
      forall u | u in after.tasks ensures FailsLess(after.stream.pending, after.tasks[u], q.h) {
        if u != t {
          assert FailsLess(q.stream.pending, q.tasks[u], q.h);
        }
      }
    }
  }

  lemma SameCountsBounded(q: Queue, after: Queue)
    requires Bounded(q.limit, q.stream, q.tasks, q.h)
    requires after.tasks == q.tasks && after.stream.pending == q.stream.pending
    requires after.stream.cursor == q.stream.cursor && after.h.failures == q.h.failures
    ensures Bounded(q.limit, after.stream, after.tasks, after.h)
  {
    forall u | u in after.tasks ensures FailsLess(after.stream.pending, after.tasks[u], after.h) {
      assert FailsLess(q.stream.pending, q.tasks[u], q.h);
    }
  }

  lemma OutsideBounded(q: Queue, e: Event, after: Queue)
    requires Kept(q) && Held(q.stream.pending, q.tasks) && Bounded(q.limit, q.stream, q.tasks, q.h)
    requires Exclusive(q, e) && !OfTask(e) && after == OutsideStep(q, e)
    ensures Bounded(q.limit, after.stream, after.tasks, after.h)
  {
    match e
    case ReadNew(t, id) => ReadNewBounded(q, t, id, after);
    case Reclaim(t, id) => ReclaimBounded(q, t, id, after);
    case _ =>
      OutsideShape(q, e, after);
      SameCountsBounded(q, after);
  }

  /** What a task's own step does to the counts: nothing, one recorded failure, or the entry leaves. */
  predicate Counts(q: Queue, t: nat, task: Task, after: Queue) {
    && after.stream.cursor == q.stream.cursor
    && (forall u :: u in after.tasks && u != t ==> u in q.tasks && after.tasks[u] == q.tasks[u])
    && (t in after.tasks ==> after.tasks[t].id == task.id)
    && (|| (after.h.failures == q.h.failures && after.stream.pending == q.stream.pending)
        || (t !in after.tasks && after.h.failures == q.h.failures
              && after.stream.pending == q.stream.pending - {task.id})
        || (t !in after.tasks && after.stream.pending == q.stream.pending && task.phase == Raised
              && task.attempt < q.limit
            && after.h.failures == q.h.failures[task.id := FailuresOf(q.h, task.id) + 1])
        || (after.h.failures == q.h.failures && task.phase != Claiming && task.id in q.stream.pending
            && after.stream.pending == q.stream.pending[task.id := Lease(t, task.attempt)]))
  }

  lemma EndShape(q: Queue, e: Event, t: nat, task: Task, after: Queue)
    requires t in q.tasks && q.tasks[t] == task && (e.RecordFailure? || e.Ack? || e.Bury? || e.Crash?)
    requires after == TaskStep(q, e, t, task)
    ensures Counts(q, t, task, after)
  {
  }

  lemma CountsShape(q: Queue, e: Event, t: nat, task: Task, after: Queue)
    requires t in q.tasks && q.tasks[t] == task && after == TaskStep(q, e, t, task)
    ensures Counts(q, t, task, after) && after.limit == q.limit
  {
    if e.RecordFailure? || e.Ack? || e.Bury? || e.Crash? {
      EndShape(q, e, t, task, after);
    }
  }

  lemma CountsBounded(q: Queue, t: nat, task: Task, after: Queue)
    requires Kept(q) && Held(q.stream.pending, q.tasks) && Bounded(q.limit, q.stream, q.tasks, q.h)
    requires t in q.tasks && q.tasks[t] == task && Counts(q, t, task, after)
    ensures Bounded(q.limit, after.stream, after.tasks, after.h)
  {
    assert HoldsLease(q.stream.pending, task) && FailsLess(q.stream.pending, task, q.h);
    assert TaskKept(task, q.stream.cursor, q.h.appended, q.h.settled);
    forall u | u in after.tasks ensures FailsLess(after.stream.pending, after.tasks[u], after.h) {
      assert FailsLess(q.stream.pending, q.tasks[u], q.h);
      if u != t {
        assert q.tasks[u].id != task.id;
      }
    }
  }

  // --------------------------------------------------------------------- whole runs

  lemma {:induction false} EveryExclusiveRun(limit: int, trace: seq<Event>) returns (q: Queue)
    requires ExclusiveRun(limit, trace)
    ensures q == After(limit, trace) && q.limit == limit
    ensures Kept(q) && Partitioned(q)
    ensures Held(q.stream.pending, q.tasks) && Bounded(limit, q.stream, q.tasks, q.h)
    decreases |trace|
  {
    q := EveryRunKept(limit, trace);
    if trace != [] {
      var n := |trace| - 1;
      var before := EveryExclusiveRun(limit, trace[..n]);
      var e := trace[n];
      StepHeld(before, e, q);
      PartitionKeptIff(before, e, q);
      StepBounded(before, e, q);
    }
  }

  lemma StepBounded(q: Queue, e: Event, after: Queue)
    requires Kept(q) && Held(q.stream.pending, q.tasks) && Bounded(q.limit, q.stream, q.tasks, q.h)
    requires Exclusive(q, e) && after == Next(q, e)
    ensures Bounded(q.limit, after.stream, after.tasks, after.h) && after.limit == q.limit
  {
    if !OfTask(e) {
      OutsideBounded(q, e, after);
    } else if e.t in q.tasks {
      TaskBounded(q, e, e.t, q.tasks[e.t], after);
    }
  }

  lemma TaskBounded(q: Queue, e: Event, t: nat, task: Task, after: Queue)
    requires Kept(q) && Held(q.stream.pending, q.tasks) && Bounded(q.limit, q.stream, q.tasks, q.h)
    requires t in q.tasks && q.tasks[t] == task && after == TaskStep(q, e, t, task)
    ensures Bounded(q.limit, after.stream, after.tasks, after.h) && after.limit == q.limit
  {
    CountsShape(q, e, t, task, after);
    CountsBounded(q, t, task, after);
  }

  /** Conservation: with exclusive leases, over every interleaving with crashes, reclaims,
      heartbeats, replays and purges, each entry ever appended is in exactly one of the live
      stream, the acknowledged entries and the dead letters, so the counts add up. */
  lemma Conservation(limit: int, trace: seq<Event>) returns (q: Queue)
    requires ExclusiveRun(limit, trace)
    ensures q == After(limit, trace)
    ensures Partitioned(q)
    ensures q.h.appended.Keys == q.stream.live.Keys + q.h.acked + q.h.buried.Keys
    ensures |q.h.appended| == |q.stream.live| + |q.h.acked| + |q.h.everBuried|
  {
    q := EveryExclusiveRun(limit, trace);
    InOnePlace(q);
    DisjointSizes(q.stream.live.Keys, q.h.acked, q.h.buried.Keys);
    assert |q.h.appended| == |q.h.appended.Keys| && |q.stream.live| == |q.stream.live.Keys|;
    assert |q.h.buried| == |q.h.buried.Keys|;
  }

  lemma InOnePlace(q: Queue)
    requires Kept(q)
    ensures q.h.appended.Keys == q.stream.live.Keys + q.h.acked + q.h.buried.Keys
  {
    forall id | id in q.h.buried ensures id in q.h.appended {
      assert q.h.everBuried[q.h.buried[id]].original == id;
    }
  }

  lemma DisjointSizes(a: set<Id>, b: set<Id>, c: set<Id>)
    requires a !! b && a !! c && b !! c
    ensures |a + b + c| == |a| + |b| + |c|
  {
    assert |a + b| == |a| + |b|;
    assert (a + b) !! c;
  }

  /** Retry bound: an entry is left pending as retrying at most limit - 1 times, and a worker only
      ever records a failure below the limit; at or past it the one way on is the dead letters. */
  lemma ExclusiveRetryBound(limit: int, trace: seq<Event>, id: Id) returns (q: Queue)
    requires ExclusiveRun(limit, trace)
    ensures q == After(limit, trace)
    ensures FailuresOf(q.h, id) <= MaxFailures(limit)
    ensures id in q.stream.pending ==> FailuresOf(q.h, id) <= q.stream.pending[id].count
  {
    q := EveryExclusiveRun(limit, trace);
  }

  /** The delivery `t` of entry `id` raised at or past the limit and is still to bury it, or the entry
      has been dead-lettered. */
  predicate LastAttemptFailed(q: Queue, t: nat, id: Id) {
    || (t in q.tasks && q.tasks[t].id == id && q.tasks[t].phase in {Raised, Doomed} && q.tasks[t].attempt >= q.limit)
    || id in q.h.buried
  }

  lemma OwnLastStep(q: Queue, e: Event, t: nat, task: Task, after: Queue)
    requires t in q.tasks && q.tasks[t] == task && task.phase in {Raised, Doomed} && task.attempt >= q.limit
    requires OfTask(e) && !e.Crash? && after == TaskStep(q, e, t, task)
    ensures LastAttemptFailed(after, t, task.id) && after.limit == q.limit && q.h.buried.Keys <= after.h.buried.Keys
  {
  }

  lemma OutsideBuried(q: Queue, e: Event, after: Queue)
    requires !OfTask(e) && after == OutsideStep(q, e)
    ensures after.h.buried == q.h.buried && after.limit == q.limit
    ensures forall t :: t in q.tasks ==> t in after.tasks && after.tasks[t] == q.tasks[t]
  {
  }

  lemma TaskBuried(q: Queue, e: Event, t: nat, task: Task, after: Queue)
    requires t in q.tasks && q.tasks[t] == task && after == TaskStep(q, e, t, task)
    ensures q.h.buried.Keys <= after.h.buried.Keys && after.limit == q.limit
    ensures forall u :: u in q.tasks && u != t ==> u in after.tasks && after.tasks[u] == q.tasks[u]
  {
  }

  lemma BuriedGrows(q: Queue, e: Event, after: Queue)
    requires after == Next(q, e)
    ensures q.h.buried.Keys <= after.h.buried.Keys && after.limit == q.limit
    ensures forall t :: t in q.tasks && (!OfTask(e) || e.t != t) ==> t in after.tasks && after.tasks[t] == q.tasks[t]
  {
    if !OfTask(e) {
      OutsideBuried(q, e, after);
    } else if e.t in q.tasks {
      TaskBuried(q, e, e.t, q.tasks[e.t], after);
    }
  }

  lemma LastAttemptStep(q: Queue, e: Event, t: nat, id: Id, after: Queue)
    requires LastAttemptFailed(q, t, id) && e != Crash(t) && after == Next(q, e)
    ensures LastAttemptFailed(after, t, id)
  {
    BuriedGrows(q, e, after);
    if id !in q.h.buried && OfTask(e) && e.t == t {
      OwnLastStep(q, e, t, q.tasks[t], after);
    }
  }

  /** Over any interleaving, a delivery that raised at or past the limit, unless it crashes, is still
      at it or its entry has been dead-lettered: nothing else it or anybody does lets it out. */
  lemma {:induction false} LastAttemptOnlyBuries(limit: int, trace: seq<Event>, n: nat, early: Queue, t: nat, id: Id)
    returns (late: Queue)
    requires n <= |trace| && early == After(limit, trace[..n]) && LastAttemptFailed(early, t, id)
    requires forall i :: n <= i < |trace| ==> trace[i] != Crash(t)
    ensures late == After(limit, trace) && LastAttemptFailed(late, t, id)
    decreases |trace|
  {
    if n == |trace| {
      assert trace[..n] == trace;
      late := early;
    } else {
      var k := |trace| - 1;
      assert trace[..k][..n] == trace[..n];
      var before := LastAttemptOnlyBuries(limit, trace[..k], n, early, t, id);
      late := After(limit, trace);
      LastAttemptAt(limit, trace, before, t, id, late);
    }
  }

  lemma LastAttemptAt(limit: int, trace: seq<Event>, before: Queue, t: nat, id: Id, late: Queue)
    requires trace != [] && trace[|trace| - 1] != Crash(t)
    requires before == After(limit, trace[..|trace| - 1]) && late == After(limit, trace)
              && LastAttemptFailed(before, t, id)
    ensures LastAttemptFailed(late, t, id)
  {
    LastAttemptStep(before, trace[|trace| - 1], t, id, late);
  }

  /** The entry is at its limit: delivered that often already, or no longer pending. */
  predicate AtLimit(q: Queue, id: Id) {
    && id in q.h.appended && AtMost(id, q.stream.cursor)
    && (id in q.stream.pending ==> q.stream.pending[id].count >= q.limit)
  }

  lemma ReadAtLimit(q: Queue, e: Event, id: Id, after: Queue)
    requires AtLimit(q, id) && (e.ReadNew? || e.Reclaim?) && after == OutsideStep(q, e)
    ensures AtLimit(after, id) && FailuresOf(after.h, id) == FailuresOf(q.h, id)
  {
  }

  lemma OutsideAtLimit(q: Queue, e: Event, id: Id, after: Queue)
    requires Kept(q) && AtLimit(q, id) && !OfTask(e) && after == OutsideStep(q, e)
    ensures AtLimit(after, id) && FailuresOf(after.h, id) == FailuresOf(q.h, id)
  {
    if e.ReadNew? || e.Reclaim? {
      ReadAtLimit(q, e, id, after);
    } else {
      OutsideShape(q, e, after);
      OutsideGrows(q, e, after);
    }
  }

  lemma TaskAtLimit(q: Queue, e: Event, t: nat, task: Task, id: Id, after: Queue)
    requires Kept(q) && Held(q.stream.pending, q.tasks) && AtLimit(q, id)
    requires t in q.tasks && q.tasks[t] == task && after == TaskStep(q, e, t, task)
    ensures AtLimit(after, id) && FailuresOf(after.h, id) == FailuresOf(q.h, id)
  {
    assert HoldsLease(q.stream.pending, task);
    CountsShape(q, e, t, task, after);
    TaskGrows(q, e, t, task, after);
  }

  /** With exclusive leases, an entry once delivered as often as the limit is never recorded as
      retrying again, however often it is reclaimed: it stays pending at that count or beyond, until
      it is acknowledged or dead-lettered. */
  lemma {:induction false} NoRetryPastLimit(limit: int, trace: seq<Event>, n: nat, early: Queue, id: Id)
    returns (late: Queue)
    requires n <= |trace| && ExclusiveRun(limit, trace) && early == After(limit, trace[..n])
    requires id in early.stream.pending && early.stream.pending[id].count >= limit
    ensures late == After(limit, trace)
    ensures FailuresOf(late.h, id) == FailuresOf(early.h, id)
    ensures AtLimit(late, id)
    ensures id in late.stream.pending || id in late.h.acked || id in late.h.buried
    decreases |trace|
  {
    late := EveryExclusiveRun(limit, trace);
    if n == |trace| {
      assert trace[..n] == trace;
      PendingIsGiven(late, id);
    } else {
      var k := |trace| - 1;
      assert trace[..k][..n] == trace[..n];
      var before := NoRetryPastLimit(limit, trace[..k], n, early, id);
      HeldStepAtLimit(limit, trace, before, id, late);
    }
    GivenIsPending(late, id);
  }

  lemma PendingIsGiven(q: Queue, id: Id)
    requires Kept(q) && id in q.stream.pending
    ensures id in q.h.appended && AtMost(id, q.stream.cursor)
  {
    assert id in q.stream.live;
  }

  lemma GivenIsPending(q: Queue, id: Id)
    requires Kept(q) && id in q.h.appended && AtMost(id, q.stream.cursor)
    ensures id in q.stream.pending || id in q.h.acked || id in q.h.buried
  {
    assert id in q.stream.live ==> id in q.stream.pending;
  }

  lemma HeldStepAtLimit(limit: int, trace: seq<Event>, before: Queue, id: Id, late: Queue)
    requires trace != [] && ExclusiveRun(limit, trace)
    requires before == After(limit, trace[..|trace| - 1]) && late == After(limit, trace) && AtLimit(before, id)
    ensures AtLimit(late, id) && FailuresOf(late.h, id) == FailuresOf(before.h, id)
  {
    var held := EveryExclusiveRun(limit, trace[..|trace| - 1]);
    StepAtLimit(held, trace[|trace| - 1], id, late);
  }

  lemma StepAtLimit(q: Queue, e: Event, id: Id, after: Queue)
    requires Kept(q) && Held(q.stream.pending, q.tasks) && AtLimit(q, id) && after == Next(q, e)
    ensures AtLimit(after, id) && FailuresOf(after.h, id) == FailuresOf(q.h, id)
  {
    if !OfTask(e) {
      OutsideAtLimit(q, e, id, after);
    } else if e.t in q.tasks {
      TaskAtLimit(q, e, e.t, q.tasks[e.t], id, after);
    }
  }

  // ------------------------------------------------- why exclusive leases are needed

  lemma FirstWorker(limit: int, fields: Fields) returns (trace: seq<Event>, q: Queue)
    requires !Parses(fields) && fields.context.None?
    ensures q == After(limit, trace)
    ensures q.h.appended == map[Id(1, 0) := fields] && q.h.everBuried == map[] && q.h.buried == map[]
              && q.dead.last == ZERO
    ensures q.stream.live == map[Id(1, 0) := fields] && q.stream.pending == map[Id(1, 0) := Lease(0, 1)]
    ensures q.tasks == map[0 := Task(Id(1, 0), fields, 1, Received)]
  {
    trace, q := Extend(limit, [], Empty(limit), ForeignEntry(fields, Id(1, 0)));
    assert q.stream == Stream(map[Id(1, 0) := fields], Id(1, 0), ZERO, map[]);
    assert NextUnread(q, Id(1, 0));
    trace, q := Extend(limit, trace, q, ReadNew(0, Id(1, 0)));
  }

  /** One malformed entry, reclaimed while its first worker is still at it. */
  lemma OverlappingWorkers(limit: int, fields: Fields) returns (trace: seq<Event>, q: Queue)
    requires !Parses(fields) && fields.context.None?
    ensures q == After(limit, trace)
    ensures q.h.appended == map[Id(1, 0) := fields] && q.h.everBuried == map[] && q.h.buried == map[]
              && q.dead.last == ZERO
    ensures q.tasks == map[0 := Task(Id(1, 0), fields, 1, Received), 1 := Task(Id(1, 0), fields, 2, Received)]
  {
    trace, q := FirstWorker(limit, fields);
    trace, q := Extend(limit, trace, q, Reclaim(1, Id(1, 0)));
    assert q.stream.pending == map[Id(1, 0) := Lease(1, 2)];
    trace, q := Extend(limit, trace, q, ReadCount(1));
  }

  lemma BothDoomed(limit: int, fields: Fields) returns (trace: seq<Event>, q: Queue)
    requires !Parses(fields) && fields.context.None?
    ensures q == After(limit, trace)
    ensures q.h.appended == map[Id(1, 0) := fields] && q.h.everBuried == map[] && q.h.buried == map[]
              && q.dead.last == ZERO
    ensures q.tasks == map[0 := Task(Id(1, 0), fields, 1, Doomed), 1 := Task(Id(1, 0), fields, 2, Doomed)]
  {
    trace, q := OverlappingWorkers(limit, fields);
    trace, q := Extend(limit, trace, q, Begin(0));
    trace, q := Extend(limit, trace, q, Begin(1));
  }

  /** Two overlapping workers, one slow enough to be reclaimed from, write two dead letter copies of
      the same malformed entry. */
  lemma OverlapBuriesTwice(limit: int, fields: Fields) returns (trace: seq<Event>, q: Queue)
    requires !Parses(fields) && fields.context.None?
    ensures q == After(limit, trace)
    ensures |q.h.appended| == 1 && |q.h.everBuried| == 2 && !Partitioned(q)
  {
    trace, q := BothDoomed(limit, fields);
    trace, q := BuriedBy(limit, trace, q, 0, Id(1, 0));
    assert q.h.everBuried.Keys == {Id(1, 0)};
    trace, q := BuriedBy(limit, trace, q, 1, Id(2, 0));
    assert q.h.buried == map[Id(1, 0) := Id(2, 0)];
  }

  lemma BuriedBy(limit: int, trace: seq<Event>, q: Queue, t: nat, grave: Id) returns (longer: seq<Event>, after: Queue)
    requires q == After(limit, trace) && t in q.tasks && q.tasks[t].phase == Doomed && Less(q.dead.last, grave)
    ensures after == After(limit, longer) && after.tasks == q.tasks - {t} && after.dead.last == grave
    ensures after.h.appended == q.h.appended && after.h.buried == q.h.buried[q.tasks[t].id := grave]
    ensures after.h.everBuried == q.h.everBuried[grave := Grave(q.tasks[t].id, q.tasks[t].fields, q.tasks[t].attempt)]
  {
    longer, after := Extend(limit, trace, q, Bury(t, grave));
  }

  lemma Extend(limit: int, trace: seq<Event>, q: Queue, e: Event) returns (longer: seq<Event>, after: Queue)
    requires q == After(limit, trace)
    ensures longer == trace + [e] && after == After(limit, longer) && after == Next(q, e)
  {
    longer := trace + [e];
    assert longer[..|trace|] == trace;
    after := Next(q, e);
  }
}
