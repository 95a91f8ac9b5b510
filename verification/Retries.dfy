/** How often an entry can be left pending as retrying, with any number of workers on it at once: the
    bound holds as long as no heartbeat puts a delivery count back, and not otherwise. */
module Retries {
  import opened Options
  import opened StreamIds
  import opened Delivery
  import opened Leases

  /** A heartbeat of a delivery that was overtaken: the entry has been delivered again since. */
  predicate Overtaken(q: Queue, e: Event) {
    && e.Heartbeat? && e.t in q.tasks
    && q.tasks[e.t].phase !in {Claiming, Received, Settled}
    && q.tasks[e.t].id in q.stream.pending
    && q.tasks[e.t].attempt < q.stream.pending[q.tasks[e.t].id].count
  }

  /** A heartbeat on an entry that is pending comes from its owner. */
  predicate OwnedBeat(q: Queue, e: Event) {
    e.Heartbeat? && e.t in q.tasks && q.tasks[e.t].id in q.stream.pending ==>
        q.stream.pending[q.tasks[e.t].id].owner == e.t
  }

  ghost predicate NeverOvertaken(limit: int, trace: seq<Event>) {
    trace == [] ||
    (var n := |trace| - 1;
     NeverOvertaken(limit, trace[..n]) && !Overtaken(After(limit, trace[..n]), trace[n]))
  }

  ghost predicate OwnedRun(limit: int, trace: seq<Event>) {
    trace == [] ||
    (var n := |trace| - 1;
     OwnedRun(limit, trace[..n]) && OwnedBeat(After(limit, trace[..n]), trace[n]))
  }

  // -------------------------------------------------------------------- the invariant

  /** The deliveries of an entry. */
  function On(tasks: map<nat, Task>, id: Id): set<nat> {
    set t | t in tasks && tasks[t].id == id
  }

  predicate CanRetry(task: Task, limit: int) {
    task.phase != Claiming && task.attempt < limit
  }

  /** Those of them that know their count and, should they fail, would record it. */
  function Below(tasks: map<nat, Task>, id: Id, limit: int): set<nat> {
    set t | t in tasks && tasks[t].id == id && CanRetry(tasks[t], limit)
  }

  /** Below the limit each recorded failure and each delivery at work was counted once; from the
      limit on, only deliveries that read their count before can still record a failure. */
  predicate WithinBudget(limit: int, count: nat, failures: nat, tasks: map<nat, Task>, id: Id) {
    if count < limit then failures + |On(tasks, id)| <= count
    else failures + |Below(tasks, id, limit)| <= MaxFailures(limit)
  }

  predicate Budgeted(limit: int, pending: map<Id, Lease>, tasks: map<nat, Task>, h: History) {
    forall id :: id in pending ==> WithinBudget(limit, pending[id].count, FailuresOf(h, id), tasks, id)
  }

  /** A delivery read a count no later than the entry's, and the owner's is the entry's own. */
  predicate ReadBefore(pending: map<Id, Lease>, t: nat, task: Task) {
    task.phase != Claiming && task.id in pending ==>
      task.attempt <= pending[task.id].count && (pending[task.id].owner == t ==> task.attempt == pending[task.id].count)
  }

  predicate AllReadBefore(pending: map<Id, Lease>, tasks: map<nat, Task>) {
    forall t :: t in tasks ==> ReadBefore(pending, t, tasks[t])
  }

  predicate OnlyGivenFail(h: History, cursor: Id) {
    forall id :: id in h.failures ==> AtMost(id, cursor)
  }

  predicate Counted(q: Queue) {
    && Budgeted(q.limit, q.stream.pending, q.tasks, q.h)
    && AllReadBefore(q.stream.pending, q.tasks)
    && OnlyGivenFail(q.h, q.stream.cursor)
  }

  // ----------------------------------------------------------------- one step at a time

  lemma BelowIsOn(tasks: map<nat, Task>, id: Id, limit: int)
    ensures |Below(tasks, id, limit)| <= |On(tasks, id)|
  {
    SubsetSize(Below(tasks, id, limit), On(tasks, id));
  }

  lemma {:induction false} SubsetSize(a: set<nat>, b: set<nat>)
    requires a <= b
    ensures |a| <= |b|
  {
    if a != {} {
      var t :| t in a;
      SubsetSize(a - {t}, b - {t});
    }
  }

  /** A new delivery is one more delivery of its own entry only. */
  lemma OneMoreOn(tasks: map<nat, Task>, t: nat, task: Task, id: Id)
    requires t !in tasks
    ensures |On(tasks[t := task], id)| == |On(tasks, id)| + (if task.id == id then 1 else 0)
  {
    if task.id == id {
      assert On(tasks[t := task], id) == On(tasks, id) + {t};
    } else {
      assert On(tasks[t := task], id) == On(tasks, id);
    }
  }

  lemma OneMoreBelow(tasks: map<nat, Task>, t: nat, task: Task, id: Id, limit: int)
    requires t !in tasks
    ensures |Below(tasks[t := task], id, limit)|
         == |Below(tasks, id, limit)| + (if task.id == id && CanRetry(task, limit) then 1 else 0)
  {
    if task.id == id && CanRetry(task, limit) {
      assert Below(tasks[t := task], id, limit) == Below(tasks, id, limit) + {t};
    } else {
      assert Below(tasks[t := task], id, limit) == Below(tasks, id, limit);
    }
  }

  lemma OneFewer(tasks: map<nat, Task>, t: nat, id: Id, limit: int)
    requires t in tasks
    ensures |On(tasks - {t}, id)| == |On(tasks, id)| - (if tasks[t].id == id then 1 else 0)
    ensures |Below(tasks - {t}, id, limit)|
         == |Below(tasks, id, limit)| - (if tasks[t].id == id && CanRetry(tasks[t], limit) then 1 else 0)
  {
    assert On(tasks - {t}, id) == On(tasks, id) - {t};
    assert Below(tasks - {t}, id, limit) == Below(tasks, id, limit) - {t};
  }

  lemma SameSets(tasks: map<nat, Task>, t: nat, task: Task, id: Id, limit: int)
    requires t in tasks && task.id == tasks[t].id
    ensures On(tasks[t := task], id) == On(tasks, id)
    ensures tasks[t].id != id || CanRetry(task, limit) == CanRetry(tasks[t], limit) ==>
              Below(tasks[t := task], id, limit) == Below(tasks, id, limit)
  {
  }

  lemma ReadNewCounted(q: Queue, t: nat, id: Id, after: Queue)
    requires Kept(q) && Counted(q) && after == ReadNewStep(q, t, id)
    ensures Counted(after)
  {
    if after != q {
      NobodyOn(q, id);
      forall other | other in after.stream.pending
        ensures WithinBudget(q.limit, after.stream.pending[other].count, FailuresOf(q.h, other), after.tasks, other)
      {
        OneMoreOn(q.tasks, t, after.tasks[t], other);
        OneMoreBelow(q.tasks, t, after.tasks[t], other, q.limit);
      }
      forall u | u in after.tasks ensures ReadBefore(after.stream.pending, u, after.tasks[u]) {
        assert u in q.tasks ==> ReadBefore(q.stream.pending, u, q.tasks[u]) && u !in On(q.tasks, id);
      }
    }
  }

  /** An entry not given out yet has no delivery and no failure. */
  lemma NobodyOn(q: Queue, id: Id)
    requires Kept(q) && Counted(q) && Less(q.stream.cursor, id)
    ensures On(q.tasks, id) == {} && Below(q.tasks, id, q.limit) == {} && FailuresOf(q.h, id) == 0
  {
    forall t | t in q.tasks ensures q.tasks[t].id != id {
      assert TaskKept(q.tasks[t], q.stream.cursor, q.h.appended, q.h.settled);
    }
  }

  lemma ReclaimCounted(q: Queue, t: nat, id: Id, after: Queue)
    requires Kept(q) && Counted(q) && after == ReclaimStep(q, t, id)
    ensures Counted(after)
  {
    if after != q {
      forall other | other in after.stream.pending
        ensures WithinBudget(q.limit, after.stream.pending[other].count, FailuresOf(q.h, other), after.tasks, other)
      {
        OneMoreOn(q.tasks, t, after.tasks[t], other);
        OneMoreBelow(q.tasks, t, after.tasks[t], other, q.limit);
        BelowIsOn(q.tasks, other, q.limit);
        assert WithinBudget(q.limit, q.stream.pending[other].count, FailuresOf(q.h, other), q.tasks, other);
      }
      forall u | u in after.tasks ensures ReadBefore(after.stream.pending, u, after.tasks[u]) {
        assert u in q.tasks ==> ReadBefore(q.stream.pending, u, q.tasks[u]);
      }
    }
  }

  lemma OutsideCounted(q: Queue, e: Event, after: Queue)
    requires Kept(q) && Counted(q) && !OfTask(e) && after == OutsideStep(q, e)
    ensures Counted(after) && after.limit == q.limit
  {
    match e
    case ReadNew(t, id) => ReadNewCounted(q, t, id, after);
    case Reclaim(t, id) => ReclaimCounted(q, t, id, after);
    case _ =>
      OutsideShape(q, e, after);
  }

  lemma ReadCountCounted(q: Queue, t: nat, task: Task, after: Queue)
    requires Kept(q) && Counted(q) && t in q.tasks && q.tasks[t] == task && after == ReadCountStep(q, t, task)
    ensures Counted(after)
  {
    if after != q {
      forall id | id in q.stream.pending
        ensures WithinBudget(q.limit, q.stream.pending[id].count, FailuresOf(q.h, id), after.tasks, id)
      {
        SameSets(q.tasks, t, after.tasks[t], id, q.limit);
      }
    }
  }

  lemma HeartbeatCounted(q: Queue, t: nat, task: Task, after: Queue)
    requires Counted(q) && t in q.tasks && q.tasks[t] == task && after == HeartbeatStep(q, t, task)
    requires !Overtaken(q, Heartbeat(t))
    ensures Counted(after)
  {
    if after != q {
      assert ReadBefore(q.stream.pending, t, task);
      forall id | id in after.stream.pending
        ensures WithinBudget(q.limit, after.stream.pending[id].count, FailuresOf(q.h, id), q.tasks, id)
      {
        assert WithinBudget(q.limit, q.stream.pending[id].count, FailuresOf(q.h, id), q.tasks, id);
      }
      forall u | u in after.tasks ensures ReadBefore(after.stream.pending, u, after.tasks[u]) {
        assert ReadBefore(q.stream.pending, u, q.tasks[u]);
      }
    }
  }

  /** The delivery goes on with the count it read, and no count changes. */
  predicate GoesOn(q: Queue, t: nat, task: Task, after: Queue)
    requires t in q.tasks
  {
    && t in after.tasks && after.tasks == q.tasks[t := after.tasks[t]]
    && after.tasks[t].id == task.id && after.tasks[t].attempt == task.attempt
    && (after.tasks[t].phase == Claiming <==> task.phase == Claiming)
    && after.stream == q.stream && after.h.failures == q.h.failures
  }

  /** The delivery ends: its entry stays or leaves, and a failure is recorded only below the limit. */
  predicate Ends(q: Queue, t: nat, task: Task, after: Queue) {
    && after.tasks == q.tasks - {t} && after.stream.cursor == q.stream.cursor
    && (after.stream.pending == q.stream.pending || after.stream.pending == q.stream.pending - {task.id})
    && (|| after.h.failures == q.h.failures
        || (CanRetry(task, q.limit) && after.h.failures == q.h.failures[task.id := FailuresOf(q.h, task.id) + 1]))
  }

  lemma EndsShape(q: Queue, e: Event, t: nat, task: Task, after: Queue)
    requires t in q.tasks && q.tasks[t] == task && (e.RecordFailure? || e.Ack? || e.Bury? || e.Crash?)
    requires after == TaskStep(q, e, t, task)
    ensures after == q || Ends(q, t, task, after)
  {
  }

  lemma GoesOnShape(q: Queue, e: Event, t: nat, task: Task, after: Queue)
    requires t in q.tasks && q.tasks[t] == task && after == TaskStep(q, e, t, task)
    requires !e.ReadCount? && !e.Heartbeat? && !(e.RecordFailure? || e.Ack? || e.Bury? || e.Crash?)
    ensures after == q || GoesOn(q, t, task, after)
  {
  }

  lemma GoesOnCounted(q: Queue, t: nat, task: Task, after: Queue)
    requires Counted(q) && t in q.tasks && q.tasks[t] == task && after.limit == q.limit && GoesOn(q, t, task, after)
    ensures Counted(after)
  {
    forall id | id in q.stream.pending
      ensures WithinBudget(q.limit, q.stream.pending[id].count, FailuresOf(after.h, id), after.tasks, id)
    {
      SameSets(q.tasks, t, after.tasks[t], id, q.limit);
    }
    forall u | u in after.tasks ensures ReadBefore(q.stream.pending, u, after.tasks[u]) {
      assert ReadBefore(q.stream.pending, u, q.tasks[u]);
    }
  }

  lemma EndsCounted(q: Queue, t: nat, task: Task, after: Queue)
    requires Kept(q) && Counted(q) && t in q.tasks && q.tasks[t] == task && after.limit == q.limit
              && Ends(q, t, task, after)
    ensures Counted(after)
  {
    assert TaskKept(task, q.stream.cursor, q.h.appended, q.h.settled);
    forall id | id in after.stream.pending
      ensures WithinBudget(q.limit, after.stream.pending[id].count, FailuresOf(after.h, id), after.tasks, id)
    {
      OneFewer(q.tasks, t, id, q.limit);
      assert WithinBudget(q.limit, q.stream.pending[id].count, FailuresOf(q.h, id), q.tasks, id);
    }
    forall u | u in after.tasks ensures ReadBefore(after.stream.pending, u, after.tasks[u]) {
      assert ReadBefore(q.stream.pending, u, q.tasks[u]);
    }
  }

  lemma TaskCounted(q: Queue, e: Event, t: nat, task: Task, after: Queue)
    requires Kept(q) && Counted(q) && t in q.tasks && q.tasks[t] == task && OfTask(e) && e.t == t
    requires !Overtaken(q, e) && after == TaskStep(q, e, t, task)
    ensures Counted(after) && after.limit == q.limit
  {
    CountsShape(q, e, t, task, after);
    if e.ReadCount? {
      ReadCountCounted(q, t, task, after);
    } else if e.Heartbeat? {
      HeartbeatCounted(q, t, task, after);
    } else if e.RecordFailure? || e.Ack? || e.Bury? || e.Crash? {
      EndsShape(q, e, t, task, after);
      if after != q {
        EndsCounted(q, t, task, after);
      }
    } else {
      GoesOnShape(q, e, t, task, after);
      if after != q {
        GoesOnCounted(q, t, task, after);
      }
    }
  }

  lemma StepCounted(q: Queue, e: Event, after: Queue)
    requires Kept(q) && Counted(q) && !Overtaken(q, e) && after == Next(q, e)
    ensures Counted(after) && after.limit == q.limit
  {
    if !OfTask(e) {
      OutsideCounted(q, e, after);
    } else if e.t in q.tasks {
      TaskCounted(q, e, e.t, q.tasks[e.t], after);
    }
  }

  lemma {:induction false} EveryCountedRun(limit: int, trace: seq<Event>) returns (q: Queue)
    requires NeverOvertaken(limit, trace)
    ensures q == After(limit, trace) && q.limit == limit && Kept(q) && Counted(q)
    decreases |trace|
  {
    q := EveryRunKept(limit, trace);
    if trace != [] {
      var n := |trace| - 1;
      var before := EveryCountedRun(limit, trace[..n]);
      StepCounted(before, trace[n], q);
    }
  }

  // ---------------------------------------------------------------------- the bound

  /** Retry bound, for any number of overlapping deliveries of an entry whose counts no heartbeat puts
      back: while the entry is pending it was recorded as retrying at most one time fewer than the
      limit, and never more often than it was delivered. */
  lemma BoundWithoutOvertakenBeats(limit: int, trace: seq<Event>, id: Id) returns (q: Queue)
    requires NeverOvertaken(limit, trace)
    ensures q == After(limit, trace)
    ensures id in q.stream.pending ==>
              FailuresOf(q.h, id) <= MaxFailures(limit) && FailuresOf(q.h, id) <= q.stream.pending[id].count
  {
    q := EveryCountedRun(limit, trace);
    if id in q.stream.pending {
      assert WithinBudget(limit, q.stream.pending[id].count, FailuresOf(q.h, id), q.tasks, id);
    }
  }

  lemma OwnerIsNotOvertaken(q: Queue, e: Event)
    requires Counted(q) && OwnedBeat(q, e)
    ensures !Overtaken(q, e)
  {
    if e.Heartbeat? && e.t in q.tasks {
      assert ReadBefore(q.stream.pending, e.t, q.tasks[e.t]);
    }
  }

  /** The owner's heartbeat is never one of those: its delivery is the entry's latest. */
  lemma {:induction false} OwnersAreNotOvertaken(limit: int, trace: seq<Event>)
    requires OwnedRun(limit, trace)
    ensures NeverOvertaken(limit, trace)
    decreases |trace|
  {
    if trace != [] {
      var n := |trace| - 1;
      OwnersAreNotOvertaken(limit, trace[..n]);
      var before := EveryCountedRun(limit, trace[..n]);
      OwnerIsNotOvertaken(before, trace[n]);
    }
  }

  /** So with heartbeats only from the current owner the bound holds, whatever else overlaps. */
  lemma RetryBound(limit: int, trace: seq<Event>, id: Id) returns (q: Queue)
    requires OwnedRun(limit, trace)
    ensures q == After(limit, trace)
    ensures id in q.stream.pending ==>
              FailuresOf(q.h, id) <= MaxFailures(limit) && FailuresOf(q.h, id) <= q.stream.pending[id].count
  {
    OwnersAreNotOvertaken(limit, trace);
    q := BoundWithoutOvertakenBeats(limit, trace, id);
  }

  lemma OutsideKeepsCount(q: Queue, e: Event, id: Id, after: Queue)
    requires Kept(q) && id in q.stream.pending && !OfTask(e) && after == OutsideStep(q, e)
    ensures id in after.stream.pending && after.stream.pending[id].count >= q.stream.pending[id].count
  {
    if !e.ReadNew? && !e.Reclaim? {
      OutsideShape(q, e, after);
    }
  }

  lemma TaskKeepsCount(q: Queue, e: Event, t: nat, task: Task, id: Id, after: Queue)
    requires id in q.stream.pending && t in q.tasks && q.tasks[t] == task && !e.Heartbeat?
              && after == TaskStep(q, e, t, task)
    ensures id in after.stream.pending ==> after.stream.pending[id] == q.stream.pending[id]
  {
    if e.RecordFailure? || e.Ack? || e.Bury? || e.Crash? {
      EndsShape(q, e, t, task, after);
    } else if !e.ReadCount? {
      GoesOnShape(q, e, t, task, after);
    }
  }

  /** Exactly which step puts the delivery count of an entry back. */
  lemma CountFallsIff(q: Queue, e: Event, id: Id, after: Queue)
    requires Kept(q) && id in q.stream.pending && after == Next(q, e)
    ensures id in after.stream.pending && after.stream.pending[id].count < q.stream.pending[id].count
       <==> Overtaken(q, e) && q.tasks[e.t].id == id
  {
    if !OfTask(e) {
      OutsideKeepsCount(q, e, id, after);
    } else if e.t in q.tasks && !e.Heartbeat? {
      TaskKeepsCount(q, e, e.t, q.tasks[e.t], id, after);
    }
  }

  // --------------------------------------------------------- without it there is no bound

  /** The first delivery of a job is at work and its entry has been recorded as retrying `n` times. */
  predicate Stuck(q: Queue, limit: int, key: Key, n: nat) {
    && q.limit == limit
    && q.stream == Stream(map[Id(1, 0) := Fields(Some(Job(key)), None)], Id(1, 0), Id(1, 0),
          map[Id(1, 0) := Lease(0, 1)])
    && q.tasks == map[0 := Task(Id(1, 0), Fields(Some(Job(key)), None), 1, Working)]
    && FailuresOf(q.h, Id(1, 0)) == n
  }

  lemma FirstGiven(limit: int, key: Key) returns (trace: seq<Event>, q: Queue)
    ensures q == After(limit, trace) && q.limit == limit && FailuresOf(q.h, Id(1, 0)) == 0
    ensures q.stream == Stream(map[Id(1, 0) := Fields(Some(Job(key)), None)], Id(1, 0), Id(1, 0),
              map[Id(1, 0) := Lease(0, 1)])
    ensures q.tasks == map[0 := Task(Id(1, 0), Fields(Some(Job(key)), None), 1, Received)]
  {
    trace, q := Extend(limit, [], Empty(limit), Enqueue(key, Id(1, 0)));
    assert q.stream == Stream(map[Id(1, 0) := Fields(Some(Job(key)), None)], Id(1, 0), ZERO, map[]);
    assert NextUnread(q, Id(1, 0));
    trace, q := Extend(limit, trace, q, ReadNew(0, Id(1, 0)));
  }

  lemma FirstAtWork(limit: int, key: Key) returns (trace: seq<Event>, q: Queue)
    ensures q == After(limit, trace) && Stuck(q, limit, key, 0)
  {
    trace, q := FirstGiven(limit, key);
    trace, q := Extend(limit, trace, q, Begin(0));
  }

  /** Beside the first worker a second one has the entry, whose count reads one again. */
  predicate Beside(q: Queue, limit: int, key: Key, n: nat, attempt: nat, phase: Phase) {
    && Stuck(q.(tasks := q.tasks - {1}), limit, key, n)
    && 1 in q.tasks && q.tasks[1] == Task(Id(1, 0), Fields(Some(Job(key)), None), attempt, phase)
  }

  lemma ClaimedAgain(limit: int, trace: seq<Event>, q: Queue, key: Key, n: nat)
    returns (longer: seq<Event>, after: Queue)
    requires q == After(limit, trace) && Stuck(q, limit, key, n)
    ensures after == After(limit, longer) && after.limit == limit && FailuresOf(after.h, Id(1, 0)) == n
    ensures after.stream == q.stream.(pending := map[Id(1, 0) := Lease(1, 2)])
    ensures after.tasks == q.tasks[1 := Task(Id(1, 0), Fields(Some(Job(key)), None), 0, Claiming)]
  {
    longer, after := Extend(limit, trace, q, Reclaim(1, Id(1, 0)));
    assert after.stream.pending == map[Id(1, 0) := Lease(1, 2)];
  }

  lemma ClaimedAndPutBack(limit: int, trace: seq<Event>, q: Queue, key: Key, n: nat)
    returns (longer: seq<Event>, after: Queue)
    requires q == After(limit, trace) && Stuck(q, limit, key, n)
    ensures after == After(limit, longer) && Beside(after, limit, key, n, 0, Claiming)
  {
    longer, after := ClaimedAgain(limit, trace, q, key, n);
    longer, after := Extend(limit, longer, after, Heartbeat(0));
    assert after.stream.pending == map[Id(1, 0) := Lease(0, 1)];
    assert after.tasks - {1} == q.tasks;
  }

  lemma BesideStep(limit: int, trace: seq<Event>, q: Queue, key: Key, n: nat, attempt: nat, phase: Phase, e: Event)
    returns (longer: seq<Event>, after: Queue)
    requires q == After(limit, trace) && Beside(q, limit, key, n, attempt, phase)
    requires || (e == ReadCount(1) && phase == Claiming)
             || (e == Begin(1) && phase == Received)
             || (e == RowFails(1) && phase == Working)
    ensures after == After(limit, longer)
    ensures Beside(after, limit, key, n, if e.ReadCount? then 1 else attempt,
                   if e.ReadCount? then Received else if e.Begin? then Working else Raised)
  {
    longer, after := Extend(limit, trace, q, e);
    assert after.tasks - {1} == q.tasks - {1};
  }

  lemma BesideFails(limit: int, trace: seq<Event>, q: Queue, key: Key, n: nat)
    returns (longer: seq<Event>, after: Queue)
    requires limit >= 2 && q == After(limit, trace) && Beside(q, limit, key, n, 1, Raised)
    ensures after == After(limit, longer) && Stuck(after, limit, key, n + 1)
  {
    longer, after := Extend(limit, trace, q, RecordFailure(1));
  }

  /** A second worker claims the entry, the first one's heartbeat puts the count back before the
      second reads it, and the second fails. */
  lemma OneMoreRetry(limit: int, trace: seq<Event>, q: Queue, key: Key, n: nat)
    returns (longer: seq<Event>, after: Queue)
    requires limit >= 2 && q == After(limit, trace) && Stuck(q, limit, key, n)
    ensures after == After(limit, longer) && Stuck(after, limit, key, n + 1)
  {
    longer, after := ClaimedAndPutBack(limit, trace, q, key, n);
    longer, after := BesideStep(limit, longer, after, key, n, 0, Claiming, ReadCount(1));
    longer, after := BesideStep(limit, longer, after, key, n, 1, Received, Begin(1));
    longer, after := BesideStep(limit, longer, after, key, n, 1, Working, RowFails(1));
    longer, after := BesideFails(limit, longer, after, key, n);
  }

  /** With a heartbeat of a delivery that was overtaken there is no bound at all: for any limit of at
      least two and any number there is a run that records that many retries of an entry and leaves
      it pending. */
  lemma {:induction false} OvertakenBeatsUnbound(limit: int, key: Key, n: nat) returns (trace: seq<Event>, q: Queue)
    requires limit >= 2
    ensures q == After(limit, trace) && Id(1, 0) in q.stream.pending && FailuresOf(q.h, Id(1, 0)) == n
    ensures Stuck(q, limit, key, n)
  {
    if n == 0 {
      trace, q := FirstAtWork(limit, key);
    } else {
      trace, q := OvertakenBeatsUnbound(limit, key, n - 1);
      trace, q := OneMoreRetry(limit, trace, q, key, n - 1);
    }
  }

  /** Every pending entry was delivered at least once, and so was what a delivery read of it. */
  predicate DeliveredOnce(q: Queue) {
    && (forall id :: id in q.stream.pending ==> q.stream.pending[id].count >= 1)
    && (forall t :: t in q.tasks ==> q.tasks[t].phase != Claiming ==> q.tasks[t].attempt >= 1)
  }

  lemma OutsideDelivers(q: Queue, e: Event, after: Queue)
    requires DeliveredOnce(q) && !OfTask(e) && after == OutsideStep(q, e)
    ensures DeliveredOnce(after) && after.h.failures == q.h.failures && after.limit == q.limit
  {
    if !e.ReadNew? && !e.Reclaim? {
      OutsideShape(q, e, after);
    }
  }

  lemma TaskDelivers(q: Queue, e: Event, t: nat, task: Task, after: Queue)
    requires DeliveredOnce(q) && q.limit <= 1 && t in q.tasks && q.tasks[t] == task && after == TaskStep(q, e, t, task)
    ensures DeliveredOnce(after) && after.h.failures == q.h.failures && after.limit == q.limit
  {
    CountsShape(q, e, t, task, after);
    if e.RecordFailure? || e.Ack? || e.Bury? || e.Crash? {
      EndsShape(q, e, t, task, after);
    } else if !e.ReadCount? && !e.Heartbeat? {
      GoesOnShape(q, e, t, task, after);
    }
  }

  /** Only for a limit of one, or less, does the bound need nothing: then no run at all records a
      retry. */
  lemma {:induction false} OneAttemptNeverRetries(limit: int, trace: seq<Event>) returns (q: Queue)
    requires limit <= 1
    ensures q == After(limit, trace) && q.limit == limit && DeliveredOnce(q) && q.h.failures == map[]
    decreases |trace|
  {
    q := After(limit, trace);
    if trace != [] {
      var n := |trace| - 1;
      var before := OneAttemptNeverRetries(limit, trace[..n]);
      var e := trace[n];
      if !OfTask(e) {
        OutsideDelivers(before, e, q);
      } else if e.t in before.tasks {
        TaskDelivers(before, e, e.t, before.tasks[e.t], q);
      }
    }
  }

  // ------------------------------------------------------- what reaches the dead letters

  /** A job on its way to the dead letters, or there, was delivered as often as the limit. */
  predicate BuriedAtLimit(q: Queue) {
    && (forall t :: t in q.tasks ==>
          q.tasks[t].phase == Doomed && Parses(q.tasks[t].fields) ==> q.tasks[t].attempt >= q.limit)
    && (forall g :: g in q.h.everBuried ==> Parses(q.h.everBuried[g].fields) ==> q.h.everBuried[g].attempt >= q.limit)
  }

  lemma OutsideBuriesNothing(q: Queue, e: Event, after: Queue)
    requires BuriedAtLimit(q) && !OfTask(e) && after == OutsideStep(q, e)
    ensures BuriedAtLimit(after) && after.limit == q.limit
  {
    if !e.ReadNew? && !e.Reclaim? {
      OutsideShape(q, e, after);
    }
  }

  lemma TaskBuriesAtLimit(q: Queue, e: Event, t: nat, task: Task, after: Queue)
    requires BuriedAtLimit(q) && t in q.tasks && q.tasks[t] == task && after == TaskStep(q, e, t, task)
    ensures BuriedAtLimit(after) && after.limit == q.limit
  {
  }

  /** Over every run: a job is dead-lettered only by a delivery at or past the attempt limit; only a
      payload that does not parse goes there at once. */
  lemma {:induction false} OnlyAtLimitBuried(limit: int, trace: seq<Event>, g: Id) returns (q: Queue)
    ensures q == After(limit, trace) && q.limit == limit && BuriedAtLimit(q)
    ensures g in q.h.everBuried && Parses(q.h.everBuried[g].fields) ==> q.h.everBuried[g].attempt >= limit
    decreases |trace|
  {
    q := After(limit, trace);
    if trace != [] {
      var n := |trace| - 1;
      var before := OnlyAtLimitBuried(limit, trace[..n], g);
      var e := trace[n];
      if !OfTask(e) {
        OutsideBuriesNothing(before, e, q);
      } else if e.t in before.tasks {
        TaskBuriesAtLimit(before, e, e.t, before.tasks[e.t], q);
      }
    }
  }
}
