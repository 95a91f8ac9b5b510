/** The queue services and the worker's delivery handler as code over Redis and the run rows. Every
    atomic script, pipeline or commit is noted as an event of the delivery protocol, so every result
    about protocol runs is a result about any interleaving of these methods. */
module QueueStore {
  import opened Options
  import opened StreamIds
  import opened WorkflowGraph
  import opened Delivery

  /** What the run of the workflow does, apart from what the row decides. */
  datatype RunFate =
    | Returns(outcome: Processing)
    | RaisesBeforeRecords  // document and run could not be found or created
    | RaisesBeforeRow
    | RaisesInGraph
    | RaisesAtRow          // the graph is through, but its row cannot be committed

  /** How handling a delivery ends. */
  datatype Handled = Acked | Buried | LeftRetrying | Crashed

  datatype ReplayEnd =
    | Answered(reply: Reply)
    | WrongType            // a key holds another type than its stream or hash
    | NoEntry
    | NotReplayable

  /** The part of Redis a delivery works on. */
  datatype Redis = Redis(
    live: map<Id, Fields>,
    pending: map<Id, Lease>,
    graves: map<Id, Grave>,
    replays: map<Id, ReplayHash>)

  class Store {
    const limit: int
    var live: map<Id, Fields>
    var last: Id
    var cursor: Id
    var pending: map<Id, Lease>
    var graves: map<Id, Grave>
    var deadLast: Id
    var replays: map<Id, ReplayHash>
    var notes: map<Id, nat>
    var dedupe: map<Key, Id>
    var rows: map<Key, Processing>
    ghost var proto: Queue
    ghost var log: seq<Queue>
    ghost var trace: seq<Event>

    constructor (limit: int)
      ensures Tracks() && this.limit == limit && trace == []
    {
      this.limit := limit;
      live, last, cursor, pending := map[], ZERO, ZERO, map[];
      graves, deadLast, replays, notes := map[], ZERO, map[], map[];
      dedupe, rows := map[], map[];
      proto, log, trace := Empty(limit), [Empty(limit)], [];
    }

    ghost function StreamView(): Stream
      reads this
    {
      Stream(live, last, cursor, pending)
    }

    ghost function DeadView(): DeadStream
      reads this
    {
      DeadStream(graves, deadLast, replays, notes)
    }

    ghost function View(): Redis
      reads this
    {
      Redis(live, pending, graves, replays)
    }

    /** The stores are what the protocol reaches by the noted events. */
    ghost predicate Tracks()
      reads this
    {
      && Recorded(limit, log, trace, proto) && proto.limit == limit
      && proto.stream == StreamView() && proto.dead == DeadView()
      && proto.dedupe == dedupe && proto.rows == rows
    }

    ghost method Note(e: Event)
      requires Recorded(limit, log, trace, proto)
      modifies this`proto, this`log, this`trace
      ensures proto == Next(old(proto), e) && trace == old(trace) + [e] && Recorded(limit, log, trace, proto)
    {
      RecordMore(limit, log, trace, proto, e);
      proto, trace := Next(proto, e), trace + [e];
      log := log + [proto];
    }

    /** Ids the stream has given out are not above its last one. */
    lemma LiveIdsAreOld(newId: Id)
      requires Tracks() && Less(last, newId)
      ensures newId !in live
    {
      RecordedIsReached(limit, log, trace, proto);
      var q := EveryRunKept(limit, trace);
    }

    // ----------------------------------------------------------------- producers

    /** The enqueue script; `fresh` is the id the stream would give out. */
    method EnqueueJob(key: Key, newId: Id) returns (id: Id)
      requires Tracks() && Less(last, newId)
      modifies this`live, this`last, this`dedupe, this`proto, this`log, this`trace
      ensures Tracks() && trace == old(trace) + [Enqueue(key, newId)]
      ensures id == if key in old(dedupe) then old(dedupe)[key] else newId
      ensures live == if key in old(dedupe) then old(live) else old(live)[newId := Fields(Some(Job(key)), None)]
      ensures dedupe == old(dedupe)[key := id]
    {
      Note(Enqueue(key, newId));
      if key in dedupe {
        assert dedupe[key := dedupe[key]] == dedupe;
        return dedupe[key];
      }
      live, last := live[newId := Fields(Some(Job(key)), None)], newId;
      dedupe := dedupe[key := newId];
      id := newId;
    }

    // ----------------------------------------------------------------- deliveries

    /** The oldest entry the group has not been given. */
    method NextUnreadId() returns (id: Option<Id>)
      requires Tracks()
      ensures id.Some? ==> NextUnread(proto, id.value)
      ensures id.None? ==> forall other :: other in live ==> !Less(cursor, other)
    {
      var unread := set other | other in live && Less(cursor, other);
      if unread == {} {
        assert forall other :: other in live && Less(cursor, other) ==> other in unread;
        return None;
      }
      var least := Smallest(unread);
      id := Some(least);
    }

    /** The batch read so far, from the cursor `start`: the oldest entries after it, in order. */
    ghost predicate Batch(ts: seq<nat>, deliveries: seq<Task>, start: Id)
      reads this
    {
      && |deliveries| <= |ts| && AtMost(start, cursor)
      && (forall i :: 0 <= i < |deliveries| ==>
            && Given(deliveries[i], start, cursor, live)
            && ts[i] in proto.tasks && proto.tasks[ts[i]] == deliveries[i])
      && (forall i, j :: 0 <= i < j < |deliveries| ==> Less(deliveries[i].id, deliveries[j].id))
      && (forall id :: id in live && Less(start, id) && AtMost(id, cursor) ==> InBatch(deliveries, id))
    }

    method ReadOneMore(ts: seq<nat>, deliveries: seq<Task>, ghost start: Id, id: Id) returns (more: seq<Task>)
      requires Tracks() && |deliveries| < |ts| && Batch(ts, deliveries, start) && NextUnread(proto, id)
      requires (forall i :: |deliveries| <= i < |ts| ==> ts[i] !in proto.tasks)
      requires forall i, j :: 0 <= i < j < |ts| ==> ts[i] != ts[j]
      modifies this`cursor, this`pending, this`proto, this`log, this`trace
      ensures Tracks() && |more| == |deliveries| + 1 && Batch(ts, more, start)
      ensures forall i :: |more| <= i < |ts| ==> ts[i] !in proto.tasks
    {
      ghost var before := cursor;
      var delivery := ReadNewEntry(ts[|deliveries|], id);
      more := deliveries + [delivery];
      forall other | other in live && Less(start, other) && AtMost(other, cursor) ensures InBatch(more, other) {
        if AtMost(other, before) {
          var i :| 0 <= i < |deliveries| && deliveries[i].id == other;
          assert more[i].id == other;
        } else {
          assert more[|deliveries|].id == other;
        }
      }
    }

    /** One batch of new entries, at most one for each of the tasks `ts`: exactly the oldest unread
        ones, in order, and all of them when they are fewer. */
    method ReadNewBatch(ts: seq<nat>) returns (deliveries: seq<Task>)
      requires Tracks() && (forall i :: 0 <= i < |ts| ==> ts[i] !in proto.tasks)
      requires forall i, j :: 0 <= i < j < |ts| ==> ts[i] != ts[j]
      modifies this`cursor, this`pending, this`proto, this`log, this`trace
      ensures Tracks() && Batch(ts, deliveries, old(cursor))
      ensures |deliveries| < |ts| ==> forall id :: id in live ==> !Less(cursor, id)
    {
      deliveries := [];
      var more := true;
      while more && |deliveries| < |ts|
        invariant Tracks() && Batch(ts, deliveries, old(cursor))
        invariant forall i :: |deliveries| <= i < |ts| ==> ts[i] !in proto.tasks
        invariant !more ==> forall id :: id in live ==> !Less(cursor, id)
        decreases more, |ts| - |deliveries|
      {
        var next := NextUnreadId();
        if next.None? {
          more := false;
        } else {
          deliveries := ReadOneMore(ts, deliveries, old(cursor), next.value);
        }
      }
    }

    /** Hand the next unread entry to worker `t`. */
    method ReadNewEntry(t: nat, id: Id) returns (task: Task)
      requires Tracks() && t !in proto.tasks && NextUnread(proto, id)
      modifies this`cursor, this`pending, this`proto, this`log, this`trace
      ensures Tracks() && trace == old(trace) + [ReadNew(t, id)]
      ensures task == Task(id, live[id], 1, Received) && proto.tasks == old(proto).tasks[t := task]
      ensures cursor == id && pending == old(pending)[id := Lease(t, 1)]
    {
      Note(ReadNew(t, id));
      cursor := id;
      pending := pending[id := Lease(t, 1)];
      task := Task(id, live[id], 1, Received);
    }

    method ClaimEntry(t: nat, id: Id)
      requires Tracks() && t !in proto.tasks && id in pending && id in live
      modifies this`pending, this`proto, this`log, this`trace
      ensures Tracks() && trace == old(trace) + [Reclaim(t, id)]
      ensures proto.tasks == old(proto).tasks[t := Task(id, live[id], 0, Claiming)]
      ensures pending == old(pending)[id := Lease(t, old(pending)[id].count + 1)]
    {
      Note(Reclaim(t, id));
      pending := pending[id := Lease(t, pending[id].count + 1)];
    }

    /** The pending summary of an entry just claimed. */
    method ReadAttempt(t: nat, id: Id, fields: Fields) returns (task: Task)
      requires Tracks() && t in proto.tasks && proto.tasks[t] == Task(id, fields, 0, Claiming)
      modifies this`proto, this`log, this`trace
      ensures Tracks() && trace == old(trace) + [ReadCount(t)]
      ensures task == Task(id, fields, if id in pending then pending[id].count else 1, Received)
      ensures proto.tasks == old(proto).tasks[t := task]
    {
      Note(ReadCount(t));
      task := Task(id, fields, if id in pending then pending[id].count else 1, Received);
    }

    method ClaimNext(ts: seq<nat>, ids: seq<Id>, k: nat, ghost was: map<Id, Lease>, ghost had: map<nat, Task>)
      requires Tracks() && k < |ids| && Apart(ts, ids) && (forall i :: 0 <= i < |ids| ==> ids[i] in live)
      requires ts[k] !in had && ids[k] in was
      requires pending == Reowned(was, ts[..k], ids[..k]) && proto.tasks == WithClaims(had, live, ts[..k], ids[..k])
      modifies this`pending, this`proto, this`log, this`trace
      ensures Tracks() && pending == Reowned(was, ts[..k + 1], ids[..k + 1])
      ensures proto.tasks == WithClaims(had, live, ts[..k + 1], ids[..k + 1])
    {
      ClaimsSoFar(was, had, live, ts[..k], ids[..k]);
      ApartFrom(ts, ids, k);
      ClaimEntry(ts[k], ids[k]);
      assert ts[..k + 1][..k] == ts[..k] && ids[..k + 1][..k] == ids[..k];
    }

    /** The claim itself: every entry of the batch gets its new owner and one more delivery. */
    method ClaimEntries(ts: seq<nat>, ids: seq<Id>)
      requires Tracks() && Apart(ts, ids) && (forall i :: 0 <= i < |ts| ==> ts[i] !in proto.tasks)
      requires forall i :: 0 <= i < |ids| ==> ids[i] in pending && ids[i] in live
      modifies this`pending, this`proto, this`log, this`trace
      ensures Tracks()
      ensures pending == Reowned(old(pending), ts, ids)
      ensures proto.tasks == WithClaims(old(proto).tasks, live, ts, ids)
    {
      ghost var was, had := pending, proto.tasks;
      var k := 0;
      while k < |ids|
        invariant 0 <= k <= |ids| && Tracks()
        invariant pending == Reowned(was, ts[..k], ids[..k])
        invariant proto.tasks == WithClaims(had, live, ts[..k], ids[..k])
      {
        ClaimNext(ts, ids, k, was, had);
        k := k + 1;
      }
      assert ts[..k] == ts && ids[..k] == ids;
    }

    /** The oldest stale pending entries, up to a limit. */
    method StaleIds(stale: Id -> bool, limit: nat) returns (ids: seq<Id>)
      requires Tracks() && (forall id :: id in pending ==> id in live)
      ensures |ids| <= limit && Ascending(ids)
      ensures forall i :: 0 <= i < |ids| ==> ids[i] in pending && ids[i] in live && stale(ids[i])
      ensures forall id :: id in pending && stale(id) && id !in ids ==>
                |ids| == limit && forall i :: 0 <= i < |ids| ==> Less(ids[i], id)
    {
      ids := [];
      var rest := set id | id in pending && stale(id);
      while rest != {} && |ids| < limit
        invariant |ids| <= limit && Ascending(ids)
        invariant forall id :: id in rest ==>
                    id in pending && stale(id) && forall i :: 0 <= i < |ids| ==> Less(ids[i], id)
        invariant forall i :: 0 <= i < |ids| ==> ids[i] in pending && stale(ids[i])
        invariant forall id :: id in pending && stale(id) ==> id in rest || id in ids
        decreases limit - |ids|
      {
        var least := Smallest(rest);
        rest := rest - {least};
        ids := ids + [least];
      }
    }

    /** Claim a batch of stale entries, the oldest ones and at most one for each of the tasks `ts`,
        then read each delivery's count, which includes this delivery. No other lease changes. */
    method ClaimStaleBatch(ts: seq<nat>, stale: Id -> bool) returns (deliveries: seq<Task>, ids: seq<Id>)
      requires Tracks() && (forall i :: 0 <= i < |ts| ==> ts[i] !in proto.tasks)
      requires forall i, j :: 0 <= i < j < |ts| ==> ts[i] != ts[j]
      modifies this`pending, this`proto, this`log, this`trace
      ensures Tracks() && |deliveries| == |ids| <= |ts| && Ascending(ids)
      ensures forall i :: 0 <= i < |ids| ==> ids[i] in old(pending) && stale(ids[i])
      ensures forall id :: id in old(pending) && stale(id) && id !in ids ==>
                |ids| == |ts| && forall i :: 0 <= i < |ids| ==> Less(ids[i], id)
      ensures pending == Reowned(old(pending), ts[..|ids|], ids)
      ensures forall i :: 0 <= i < |ids| ==>
                && ids[i] in live
                && deliveries[i] == Task(ids[i], live[ids[i]], old(pending)[ids[i]].count + 1, Received)
                && ts[i] in proto.tasks && proto.tasks[ts[i]] == deliveries[i]
    {
      PendingIsLive();
      ids := StaleIds(stale, |ts|);
      ghost var was, had := pending, proto.tasks;
      var owners := ts[..|ids|];
      ClaimEntries(owners, ids);
      forall i | 0 <= i < |ids|
        ensures ids[i] in pending && pending[ids[i]].count == was[ids[i]].count + 1
        ensures owners[i] in proto.tasks && proto.tasks[owners[i]] == Task(ids[i], live[ids[i]], 0, Claiming)
      {
        ClaimsAt(was, had, live, owners, ids, i);
      }
      deliveries := ReadAttempts(owners, ids);
    }

    /** A reached queue has no pending entry that is not live. */
    lemma PendingIsLive()
      requires Tracks()
      ensures forall id :: id in pending ==> id in live
    {
      RecordedIsReached(limit, log, trace, proto);
      var q := EveryRunKept(limit, trace);
    }

    method ReadAttempts(ts: seq<nat>, ids: seq<Id>) returns (deliveries: seq<Task>)
      requires Tracks() && Apart(ts, ids)
      requires forall i :: 0 <= i < |ids| ==>
                 && ids[i] in live && ids[i] in pending
                 && ts[i] in proto.tasks && proto.tasks[ts[i]] == Task(ids[i], live[ids[i]], 0, Claiming)
      modifies this`proto, this`log, this`trace
      ensures Tracks() && |deliveries| == |ids|
      ensures forall i :: 0 <= i < |ids| ==>
                && deliveries[i] == Task(ids[i], live[ids[i]], pending[ids[i]].count, Received)
                && ts[i] in proto.tasks && proto.tasks[ts[i]] == deliveries[i]
    {
      deliveries := [];
      while |deliveries| < |ids|
        invariant |deliveries| <= |ids| && Tracks()
        invariant forall i :: |deliveries| <= i < |ids| ==>
                    ts[i] in proto.tasks && proto.tasks[ts[i]] == Task(ids[i], live[ids[i]], 0, Claiming)
        invariant forall i :: 0 <= i < |deliveries| ==>
                    && deliveries[i] == Task(ids[i], live[ids[i]], pending[ids[i]].count, Received)
                    && ts[i] in proto.tasks && proto.tasks[ts[i]] == deliveries[i]
      {
        var k := |deliveries|;
        var delivery := ReadAttempt(ts[k], ids[k], live[ids[k]]);
        deliveries := deliveries + [delivery];
      }
    }

    // ------------------------------------------------------- the ends of a delivery

    method MarkReplay(fields: Fields, state: ActionState)
      modifies this`replays
      ensures replays == Marked(old(replays), fields, state)
      ensures fields.context.Some? ==>
                var c := fields.context.value;
                && (forall d :: d in old(replays) && d != c.dlq ==> d in replays && replays[d] == old(replays)[d])
                && replays[c.dlq].count == HashIn(old(replays), c.dlq).count
                && replays[c.dlq].last == HashIn(old(replays), c.dlq).last
                && replays[c.dlq].actions[c.request].state == state
    {
      if fields.context.Some? {
        var c := fields.context.value;
        var hash := HashIn(replays, c.dlq);
        var action := if c.request in hash.actions then hash.actions[c.request].(state := state)
            else Action(None, state);
        replays := replays[c.dlq := hash.(actions := hash.actions[c.request := action])];
      }
    }

    method RecordFailure(t: nat, task: Task)
      requires Tracks() && t in proto.tasks && proto.tasks[t] == task && task.phase == Raised && task.attempt < limit
      modifies this`notes, this`replays, this`proto, this`log, this`trace
      ensures Tracks() && trace == old(trace) + [Event.RecordFailure(t)] && proto.tasks == old(proto).tasks - {t}
      ensures notes == old(notes)[task.id := task.attempt] && replays == Marked(old(replays), task.fields, Retried)
    {
      Note(Event.RecordFailure(t));
      notes := notes[task.id := task.attempt];
      MarkReplay(task.fields, Retried);
    }

    method Acknowledge(t: nat, task: Task)
      requires Tracks() && t in proto.tasks && proto.tasks[t] == task && task.phase == Settled
      modifies this`live, this`pending, this`replays, this`proto, this`log, this`trace
      ensures Tracks() && trace == old(trace) + [Ack(t)] && proto.tasks == old(proto).tasks - {t}
      ensures live == old(live) - {task.id} && pending == old(pending) - {task.id}
      ensures replays == Marked(old(replays), task.fields, Acknowledged)
    {
      Note(Ack(t));
      pending := pending - {task.id};
      live := live - {task.id};
      MarkReplay(task.fields, Acknowledged);
    }

    ghost method NoteBury(t: nat, task: Task, grave: Id)
      requires Tracks() && t in proto.tasks && proto.tasks[t] == task && task.phase == Doomed && Less(deadLast, grave)
      modifies this`proto, this`log, this`trace
      ensures trace == old(trace) + [Bury(t, grave)] && Recorded(limit, log, trace, proto)
      ensures proto.limit == limit && proto.rows == rows && proto.dedupe == dedupe
                && proto.tasks == old(proto).tasks - {t}
      ensures proto.stream == Stream(live - {task.id}, last, cursor, pending - {task.id})
      ensures proto.dead == DeadStream(graves[grave := Grave(task.id, task.fields, task.attempt)], grave,
                                       Marked(replays, task.fields, DeadLettered), notes)
    {
      Note(Bury(t, grave));
    }

    method DeadLetter(t: nat, task: Task, grave: Id)
      requires Tracks() && t in proto.tasks && proto.tasks[t] == task && task.phase == Doomed && Less(deadLast, grave)
      modifies this`live, this`pending, this`graves, this`deadLast, this`replays, this`proto, this`log, this`trace
      ensures Tracks() && trace == old(trace) + [Bury(t, grave)] && proto.tasks == old(proto).tasks - {t}
      ensures graves == old(graves)[grave := Grave(task.id, task.fields, task.attempt)] && deadLast == grave
      ensures live == old(live) - {task.id} && pending == old(pending) - {task.id}
      ensures replays == Marked(old(replays), task.fields, DeadLettered)
    {
      NoteBury(t, task, grave);
      graves, deadLast := graves[grave := Grave(task.id, task.fields, task.attempt)], grave;
      pending := pending - {task.id};
      live := live - {task.id};
      MarkReplay(task.fields, DeadLettered);
    }

    // --------------------------------------------------------------- the delivery handler

    ghost method Die(t: nat)
      requires Tracks() && t in proto.tasks
      modifies this`proto, this`log, this`trace
      ensures Tracks() && trace == old(trace) + [Crash(t)] && proto.tasks == old(proto).tasks - {t}
    {
      Note(Crash(t));
    }

    /** Parse the payload, and report a replay as being processed. */
    method BeginDelivery(t: nat, task: Task) returns (begun: Task)
      requires Tracks() && t in proto.tasks && proto.tasks[t] == task && task.phase == Received
      modifies this`replays, this`proto, this`log, this`trace
      ensures Tracks() && trace == old(trace) + [Begin(t)]
      ensures begun == task.(phase := if Parses(task.fields) then Working else Doomed)
      ensures proto.tasks == old(proto).tasks[t := begun]
      ensures replays == if Parses(task.fields) then Marked(old(replays), task.fields, InProcess) else old(replays)
    {
      Note(Begin(t));
      if Parses(task.fields) {
        MarkReplay(task.fields, InProcess);
        begun := task.(phase := Working);
      } else {
        begun := task.(phase := Doomed);
      }
    }

    /** The job's document and run, created together unless they exist. */
    method CreateRecords(t: nat, task: Task)
      requires Tracks() && t in proto.tasks && proto.tasks[t] == task && task.phase == Working && Parses(task.fields)
      modifies this`rows, this`proto, this`log, this`trace
      ensures Tracks() && trace == old(trace) + [Create(t)] && proto.tasks == old(proto).tasks
      ensures rows == if KeyOf(task.fields) in old(rows) then old(rows) else old(rows)[KeyOf(task.fields) := Running]
    {
      Note(Create(t));
      if KeyOf(task.fields) !in rows {
        rows := rows[KeyOf(task.fields) := Running];
      }
    }

    /** The first look at the row: raise, short-circuit, or go on. */
    method LoadRow(t: nat, task: Task) returns (loaded: Task)
      requires Tracks() && t in proto.tasks && proto.tasks[t] == task && task.phase == Working
      requires Parses(task.fields) && KeyOf(task.fields) in rows
      modifies this`proto, this`log, this`trace
      ensures Tracks() && trace == old(trace) + [Load(t)]
      ensures var row := rows[KeyOf(task.fields)];
              loaded == task.(phase := if row == RunFailed && task.fields.context.None? then Raised
                                       else if Short(row) then Settled else Admitted)
      ensures proto.tasks == old(proto).tasks[t := loaded]
    {
      Note(Load(t));
      var row := rows[KeyOf(task.fields)];
      if row == RunFailed && task.fields.context.None? {
        return task.(phase := Raised);
      }
      if Short(row) {
        return task.(phase := Settled);
      }
      loaded := task.(phase := Admitted);
    }

    /** The second look, in the session that will commit the row: a replay resets a failed run. */
    method ResetRow(t: nat, task: Task) returns (entered: Task)
      requires Tracks() && t in proto.tasks && proto.tasks[t] == task && task.phase == Admitted
      requires Parses(task.fields) && KeyOf(task.fields) in rows
      modifies this`rows, this`proto, this`log, this`trace
      ensures Tracks() && trace == old(trace) + [Reset(t)]
      ensures entered == task.(phase := InGraph) && proto.tasks == old(proto).tasks[t := entered]
      ensures rows == if task.fields.context.Some? && old(rows)[KeyOf(task.fields)] == RunFailed
                      then old(rows)[KeyOf(task.fields) := Retrying] else old(rows)
    {
      Note(Reset(t));
      if task.fields.context.Some? && rows[KeyOf(task.fields)] == RunFailed {
        rows := rows[KeyOf(task.fields) := Retrying];
      }
      entered := task.(phase := InGraph);
    }

    method FinishGraph(t: nat, task: Task, run: RunFate) returns (finished: Task)
      requires Tracks() && t in proto.tasks && proto.tasks[t] == task && task.phase == InGraph && Parses(task.fields)
      requires run.Returns? ==> Short(run.outcome)
      modifies this`rows, this`proto, this`log, this`trace
      ensures Tracks() && trace == old(trace) + [if run.Returns? then Commit(t, run.outcome)
                                                 else if run == RaisesAtRow then RowFails(t) else Throw(t)]
      ensures finished == task.(phase := if run.Returns? then Settled else Raised)
      ensures rows == if run == RaisesAtRow then old(rows)
                      else old(rows)[KeyOf(task.fields) := if run.Returns? then run.outcome else Retrying]
      ensures proto.tasks == old(proto).tasks[t := finished]
    {
      var key := KeyOf(task.fields);
      if run.Returns? {
        Note(Commit(t, run.outcome));
        rows := rows[key := run.outcome];
        finished := task.(phase := Settled);
      } else if run == RaisesAtRow {
        Note(RowFails(t));
        finished := task.(phase := Raised);
      } else {
        Note(Throw(t));
        rows := rows[key := Retrying];
        finished := task.(phase := Raised);
      }
    }

    ghost method RecordsRaise(t: nat, task: Task)
      requires Tracks() && t in proto.tasks && proto.tasks[t] == task && task.phase == Working
      modifies this`proto, this`log, this`trace
      ensures Tracks() && trace == old(trace) + [RowFails(t)]
                && proto.tasks == old(proto).tasks[t := task.(phase := Raised)]
    {
      Note(RowFails(t));
    }

    /** Mark the run failed, when its row exists. */
    method MarkJobFailed(t: nat, task: Task) returns (doomed: Task)
      requires Tracks() && t in proto.tasks && proto.tasks[t] == task && task.phase == Raised && task.attempt >= limit
      requires Parses(task.fields)
      modifies this`rows, this`proto, this`log, this`trace
      ensures Tracks() && trace == old(trace) + [MarkFailed(t)]
      ensures doomed == task.(phase := Doomed) && proto.tasks == old(proto).tasks[t := doomed]
      ensures rows == if KeyOf(task.fields) in old(rows) then old(rows)[KeyOf(task.fields) := RunFailed] else old(rows)
    {
      Note(MarkFailed(t));
      if KeyOf(task.fields) in rows {
        rows := rows[KeyOf(task.fields) := RunFailed];
      }
      doomed := task.(phase := Doomed);
    }

    /** The part of the workflow call after the row was looked at. */
    method RunAdmitted(t: nat, task: Task, run: RunFate, lives: nat) returns (ran: Option<Task>)
      requires Tracks() && t in proto.tasks && proto.tasks[t] == task && task.phase == Admitted
      requires Parses(task.fields) && KeyOf(task.fields) in rows && (run.Returns? ==> Short(run.outcome))
      modifies this`rows, this`proto, this`log, this`trace
      ensures Tracks()
      ensures ran.None? ==> t !in proto.tasks && lives < 2
      ensures ran.Some? ==> t in proto.tasks && proto.tasks[t] == ran.value
      ensures ran.Some? ==> ran.value == task.(phase := if run.Returns? then Settled else Raised)
      ensures KeyOf(task.fields) in rows && rows == old(rows)[KeyOf(task.fields) := rows[KeyOf(task.fields)]]
      ensures ran.Some? && run.Returns? ==> rows[KeyOf(task.fields)] == run.outcome
    {
      if lives == 0 {
        Die(t);
        assert rows == rows[KeyOf(task.fields) := rows[KeyOf(task.fields)]];
        return None;
      }
      var entered := ResetRow(t, task);
      if lives == 1 {
        Die(t);
        ran := None;
      } else {
        var finished := FinishGraph(t, entered, run);
        ran := Some(finished);
      }
      assert rows == old(rows)[KeyOf(task.fields) := rows[KeyOf(task.fields)]];
    }

    /** The workflow call up to the first look at the row. */
    method OpenRun(t: nat, task: Task, run: RunFate, lives: nat) returns (entered: Option<Task>)
      requires Tracks() && t in proto.tasks && proto.tasks[t] == task && task.phase == Working && Parses(task.fields)
      modifies this`rows, this`proto, this`log, this`trace
      ensures Tracks()
      ensures entered.None? ==> t !in proto.tasks && lives == 0
      ensures entered.Some? ==> t in proto.tasks && proto.tasks[t] == entered.value
      ensures entered.Some? ==>
                entered.value == task.(phase := Opened(task.fields, RowIn(old(rows), KeyOf(task.fields)), run))
      ensures || rows == old(rows)
              || (KeyOf(task.fields) !in old(rows) && rows == old(rows)[KeyOf(task.fields) := Running])
      ensures entered.Some? && entered.value.phase != Raised ==> KeyOf(task.fields) in rows && lives > 0
    {
      if run == RaisesBeforeRecords {
        RecordsRaise(t, task);
        return Some(task.(phase := Raised));
      }
      if lives == 0 {
        Die(t);
        return None;
      }
      CreateRecords(t, task);
      if run == RaisesBeforeRow {
        RecordsRaise(t, task);
        entered := Some(task.(phase := Raised));
      } else {
        var loaded := LoadRow(t, task);
        entered := Some(loaded);
      }
    }

    /** The workflow call: the row decides whether the graph runs at all. */
    method RunWorkflow(t: nat, task: Task, run: RunFate, lives: nat) returns (ran: Option<Task>)
      requires Tracks() && t in proto.tasks && proto.tasks[t] == task && task.phase == Working && Parses(task.fields)
      requires run.Returns? ==> Short(run.outcome)
      modifies this`rows, this`proto, this`log, this`trace
      ensures Tracks()
      ensures ran.None? ==> t !in proto.tasks && lives < 3
      ensures ran.Some? ==> t in proto.tasks && proto.tasks[t] == ran.value
      ensures var row := RowIn(old(rows), KeyOf(task.fields));
              ran.Some? ==>
                ran.value == task.(phase := if WorkflowRaises(task.fields, row, run) then Raised else Settled)
      ensures RowsAfterRun(old(rows), rows, task.fields, ran.Some? && ran.value.phase == Settled)
    {
      ran := OpenRun(t, task, run, lives);
      ghost var entered := rows;
      if ran.Some? && ran.value.phase == Admitted {
        ran := RunAdmitted(t, ran.value, run, lives - 1);
      }
      RowsOpened(old(rows), entered, rows, task.fields, run, ran.Some? && ran.value.phase == Settled);
    }

    /** What the handler does with an exception: on the last attempt, fail the run and bury the
        entry; before it, leave the entry pending. */
    method HandleFailure(t: nat, task: Task, lives: nat, grave: Id) returns (end: Handled)
      requires Tracks() && t in proto.tasks && proto.tasks[t] == task && task.phase == Raised && Parses(task.fields)
      requires Less(deadLast, grave)
      modifies this
      ensures Tracks() && t !in proto.tasks
      ensures end == if task.attempt >= limit then (if lives < 2 then Crashed else Buried)
                     else (if lives == 0 then Crashed else LeftRetrying)
      ensures View() == Ended(old(View()), AsGrave(task), end, grave)
      ensures end == LeftRetrying ==> notes == old(notes)[task.id := task.attempt]
      ensures rows == (if task.attempt >= limit && lives > 0 && KeyOf(task.fields) in old(rows)
                       then old(rows)[KeyOf(task.fields) := RunFailed] else old(rows))
    {
      if lives == 0 {
        Die(t);
        return Crashed;
      }
      if task.attempt < limit {
        RecordFailure(t, task);
        return LeftRetrying;
      }
      var doomed := MarkJobFailed(t, task);
      if lives == 1 {
        Die(t);
        return Crashed;
      }
      DeadLetter(t, doomed, grave);
      end := Buried;
    }

    /** Acknowledge a run that returned, or let the failure handler have one that raised. */
    method FinishJob(t: nat, task: Task, lives: nat, grave: Id) returns (end: Handled)
      requires Tracks() && t in proto.tasks && proto.tasks[t] == task && Parses(task.fields)
      requires task.phase == Raised || task.phase == Settled
      requires Less(deadLast, grave)
      modifies this
      ensures Tracks() && t !in proto.tasks
      ensures end == Crashed <==> lives == 0 || (lives == 1 && task.phase == Raised && task.attempt >= limit)
      ensures end == Crashed || end == if task.phase == Settled then Acked
                else if task.attempt >= limit then Buried else LeftRetrying
      ensures View() == Ended(old(View()), AsGrave(task), end, grave)
      ensures end == LeftRetrying ==> notes == old(notes)[task.id := task.attempt]
      ensures rows == (if task.phase == Raised && task.attempt >= limit && lives > 0 && KeyOf(task.fields) in old(rows)
                       then old(rows)[KeyOf(task.fields) := RunFailed] else old(rows))
    {
      if task.phase == Raised {
        end := HandleFailure(t, task, lives, grave);
      } else if lives == 0 {
        Die(t);
        end := Crashed;
      } else {
        Acknowledge(t, task);
        end := Acked;
      }
    }

    /** One beat: the lease is this worker's, at this delivery's own count. */
    method BeatHeart(t: nat, task: Task)
      requires Tracks() && t in proto.tasks && proto.tasks[t] == task && task.phase == Working
      modifies this`pending, this`proto, this`log, this`trace
      ensures Tracks() && trace == old(trace) + [Heartbeat(t)] && proto.tasks == old(proto).tasks
      ensures pending == Beaten(old(pending), t, task.id, task.attempt, true)
    {
      Note(Heartbeat(t));
      if task.id in pending {
        pending := pending[task.id := Lease(t, task.attempt)];
      }
    }

    /** Begin, and let the heartbeat renew the lease if `beats`. Later beats of the same delivery
        change nothing more. */
    method StartWork(t: nat, task: Task, beats: bool) returns (begun: Task)
      requires Tracks() && t in proto.tasks && proto.tasks[t] == task && task.phase == Received
      modifies this`replays, this`pending, this`proto, this`log, this`trace
      ensures Tracks() && proto.tasks == old(proto).tasks[t := begun]
      ensures begun == task.(phase := if Parses(task.fields) then Working else Doomed)
      ensures View() == BegunView(old(View()), t, AsGrave(task), beats)
    {
      begun := BeginDelivery(t, task);
      if begun.phase == Working && beats {
        BeatHeart(t, begun);
      }
    }

    /** The part of a delivery after its payload has parsed. */
    method ProcessJob(t: nat, task: Task, run: RunFate, lives: nat, grave: Id) returns (end: Handled)
      requires Tracks() && t in proto.tasks && proto.tasks[t] == task && task.phase == Working && Parses(task.fields)
      requires run.Returns? ==> Short(run.outcome)
      requires Less(deadLast, grave)
      modifies this
      ensures Tracks() && t !in proto.tasks
      ensures end == Crashed ==> lives < 5
      ensures end != Crashed ==> end == Verdict(limit, task.fields, task.attempt, old(rows), run)
      ensures View() == Ended(old(View()), AsGrave(task), end, grave)
      ensures end == LeftRetrying ==> notes == old(notes)[task.id := task.attempt]
      ensures RowsAfterEnd(old(rows), rows, task.fields, end)
    {
      var ran := RunWorkflow(t, task, run, lives);
      ghost var between := rows;
      if ran.None? {
        end := Crashed;
        RowsThrough(old(rows), between, rows, task.fields, false, false, end);
      } else {
        end := FinishJob(t, ran.value, if lives >= 3 then lives - 3 else 0, grave);
        RowsThrough(old(rows), between, rows, task.fields, ran.value.phase == Settled,
                    ran.value.phase == Raised && task.attempt >= limit && lives > 3, end);
      }
    }

    /** One delivery from parsing to its acknowledgement, its dead letter, or a recorded failure.
        The worker dies before write number `lives`; six writes are enough for any delivery, and
        then the payload, the attempt, the run's row and the workflow's own fate decide the end. A
        delivery that dies leaves the entry pending, and an ordinary delivery of a failed run never
        changes its row. The entry's replay action follows: being processed, then how it ended. */
    method ProcessDelivery(t: nat, task: Task, run: RunFate, beats: bool, lives: nat, grave: Id) returns (end: Handled)
      requires Tracks() && t in proto.tasks && proto.tasks[t] == task && task.phase == Received
      requires run.Returns? ==> Short(run.outcome)
      requires Less(deadLast, grave)
      modifies this
      ensures Tracks() && t !in proto.tasks
      ensures end == Crashed ==> lives < 6
      ensures end != Crashed ==> EndsAs(limit, task, old(rows), run, end)
      ensures var begun := if lives > 0 then BegunView(old(View()), t, AsGrave(task), beats) else old(View());
              View() == Ended(begun, AsGrave(task), end, grave)
      ensures end == LeftRetrying ==> notes == old(notes)[task.id := task.attempt]
      ensures RowsAfterEnd(old(rows), rows, task.fields, end)
    {
      VerdictMeans(limit, task, rows, run);
      end := HandleDelivery(t, task, run, beats, lives, grave);
    }

    /** The handler's steps. */
    method HandleDelivery(t: nat, task: Task, run: RunFate, beats: bool, lives: nat, grave: Id) returns (end: Handled)
      requires Tracks() && t in proto.tasks && proto.tasks[t] == task && task.phase == Received
      requires run.Returns? ==> Short(run.outcome)
      requires Less(deadLast, grave)
      modifies this
      ensures Tracks() && t !in proto.tasks
      ensures end == Crashed ==> lives < 6
      ensures end != Crashed ==> end == Verdict(limit, task.fields, task.attempt, old(rows), run)
      ensures var begun := if lives > 0 then BegunView(old(View()), t, AsGrave(task), beats) else old(View());
              View() == Ended(begun, AsGrave(task), end, grave)
      ensures end == LeftRetrying ==> notes == old(notes)[task.id := task.attempt]
      ensures RowsAfterEnd(old(rows), rows, task.fields, end)
    {
      if lives == 0 {
        Die(t);
        return Crashed;
      }
      var begun := StartWork(t, task, beats);
      if begun.phase == Working {
        end := ProcessJob(t, begun, run, lives - 1, grave);
      } else if lives == 1 {
        Die(t);
        end := Crashed;
      } else {
        DeadLetter(t, begun, grave);
        end := Buried;
      }
    }

    // ------------------------------------------------------------------ operator replay

    ghost method NoteReplay(dlq: Id, request: Request, evidence: Fields, newId: Id) returns (reply: Reply)
      requires Tracks() && Less(last, newId) && Parses(evidence)
      modifies this`proto, this`log, this`trace
      ensures trace == old(trace) + [Replay(dlq, request, evidence, newId)] && Recorded(limit, log, trace, proto)
      ensures reply == ReplayReply(DeadView(), dlq, request, evidence, newId)
      ensures !reply.Created? ==> proto == old(proto)
      ensures reply.Created? ==>
                && proto.limit == limit && proto.rows == rows && proto.dedupe == dedupe
                && proto.tasks == old(proto).tasks
                && proto.stream == Stream(live[newId := Fields(evidence.payload, Some(Context(dlq, request)))],
                      newId, cursor, pending)
                && proto.dead == DeadStream(graves, deadLast,
                      replays[dlq := ReplayedHash(HashIn(replays, dlq), request, newId)], notes)
    {
      reply := ReplayReply(proto.dead, dlq, request, evidence, newId);
      Note(Replay(dlq, request, evidence, newId));
    }

    /** The script's own writes: the new entry and the hash that counts it. */
    method WriteReplay(dlq: Id, request: Request, evidence: Fields, newId: Id)
      modifies this`live, this`last, this`replays
      ensures live == old(live)[newId := Fields(evidence.payload, Some(Context(dlq, request)))] && last == newId
      ensures replays == old(replays)[dlq := ReplayedHash(HashIn(old(replays), dlq), request, newId)]
      ensures ReplayWrites(old(View()), View(), dlq, request, evidence, newId)
    {
      live, last := live[newId := Fields(evidence.payload, Some(Context(dlq, request)))], newId;
      replays := replays[dlq := ReplayedHash(HashIn(replays, dlq), request, newId)];
    }

    /** The script's look at the entry and its hash; none when it goes on to create. */
    method LookForReplay(dlq: Id, request: Request, evidence: Fields, newId: Id) returns (found: Option<Reply>)
      ensures found.Some? ==>
                found.value == ReplayReply(DeadView(), dlq, request, evidence, newId) && !found.value.Created?
      ensures found.None? ==>
                ReplayReply(DeadView(), dlq, request, evidence, newId) == Created(newId, HashIn(replays, dlq).count + 1)
    {
      if dlq !in graves {
        return Some(NotFound);
      }
      if graves[dlq].fields != evidence {
        return Some(EvidenceChanged);
      }
      var hash := HashIn(replays, dlq);
      if request in hash.actions && hash.actions[request].live.Some? {
        return Some(Existing(hash.actions[request].live.value, hash.count, hash.actions[request].state));
      }
      if hash.last.Some? && hash.last.value != request {
        if hash.last.value in hash.actions && !Terminal(hash.actions[hash.last.value].state) {
          return Some(InProgress);
        }
      }
      found := None;
    }

    /** The replay script; `typesFit` is whether its three keys hold what they should. */
    method RunReplayScript(dlq: Id, request: Request, evidence: Fields, newId: Id, typesFit: bool)
      returns (end: ReplayEnd)
      requires Tracks() && Less(last, newId) && Parses(evidence)
      modifies this`live, this`last, this`replays, this`proto, this`log, this`trace
      ensures Tracks()
      ensures trace == if typesFit then old(trace) + [Replay(dlq, request, evidence, newId)] else old(trace)
      ensures end == WrongType || end.Answered?
      ensures end == WrongType <==> !typesFit
      ensures end.Answered? ==> ReplayAnswered(graves, old(replays), dlq, request, evidence, newId, end.reply)
      ensures end.Answered? && end.reply.Created? ==> ReplayWrites(old(View()), View(), dlq, request, evidence, newId)
      ensures !(end.Answered? && end.reply.Created?) ==> live == old(live) && replays == old(replays)
    {
      if !typesFit {
        return WrongType;
      }
      ReplyMeans(DeadView(), dlq, request, evidence, newId);
      ghost var expected := NoteReplay(dlq, request, evidence, newId);
      var found := LookForReplay(dlq, request, evidence, newId);
      if found.Some? {
        return Answered(found.value);
      }
      end := Answered(Created(newId, HashIn(replays, dlq).count + 1));
      WriteReplay(dlq, request, evidence, newId);
    }

    /** Read the entry, validate its evidence, and run the replay script. */
    method ReplayDlqEntry(dlq: Id, request: Request, newId: Id, typesFit: bool) returns (end: ReplayEnd)
      requires Tracks() && Less(last, newId)
      modifies this`live, this`last, this`replays, this`proto, this`log, this`trace
      ensures Tracks()
      ensures end == NoEntry <==> dlq !in graves
      ensures end == NotReplayable <==> dlq in graves && !Parses(graves[dlq].fields)
      ensures end == WrongType <==> dlq in graves && Parses(graves[dlq].fields) && !typesFit
      ensures end.Answered? <==> dlq in graves && Parses(graves[dlq].fields) && typesFit
      ensures end.Answered? ==>
                ReplayAnswered(graves, old(replays), dlq, request, graves[dlq].fields, newId, end.reply)
      ensures end.Answered? && end.reply.Created? ==>
                ReplayWrites(old(View()), View(), dlq, request, graves[dlq].fields, newId)
      ensures !(end.Answered? && end.reply.Created?) ==> live == old(live) && replays == old(replays)
    {
      if dlq !in graves {
        return NoEntry;
      }
      if !Parses(graves[dlq].fields) {
        return NotReplayable;
      }
      end := RunReplayScript(dlq, request, graves[dlq].fields, newId, typesFit);
    }
  }

  /** What a created replay writes: the job again under a new id with its replay context, and in the
      entry's hash one more replay, the new last request, and its enqueued action. */
  predicate ReplayWrites(was: Redis, now: Redis, dlq: Id, request: Request, evidence: Fields, newId: Id) {
    var before := if dlq in was.replays then was.replays[dlq] else ReplayHash(0, None, map[]);
    && now.live == was.live[newId := Fields(evidence.payload, Some(Context(dlq, request)))]
    && now.pending == was.pending && now.graves == was.graves
    && now.replays == was.replays[dlq := ReplayHash(before.count + 1, Some(request),
                                                    before.actions[request := Action(Some(newId), Enqueued)])]
  }

  /** One step of the log of protocol states. */
  ghost predicate Link(log: seq<Queue>, trace: seq<Event>, i: nat)
    requires i < |trace| && |log| == |trace| + 1
  {
    log[i + 1] == Next(log[i], trace[i])
  }

  /** The log leads from the empty queue to `q` by the trace. */
  ghost predicate Recorded(limit: int, log: seq<Queue>, trace: seq<Event>, q: Queue) {
    && |log| == |trace| + 1 && log[0] == Empty(limit) && log[|trace|] == q
    && (forall i: nat :: i < |trace| ==> Link(log, trace, i))
  }

  lemma RecordMore(limit: int, log: seq<Queue>, trace: seq<Event>, q: Queue, e: Event)
    requires Recorded(limit, log, trace, q)
    ensures Recorded(limit, log + [Next(q, e)], trace + [e], Next(q, e))
  {
    var longer, more := log + [Next(q, e)], trace + [e];
    forall i: nat | i < |more| ensures Link(longer, more, i) {
      assert i < |trace| ==> Link(log, trace, i);
    }
  }

  /** What the methods record is a run of the protocol, to which all its results apply. */
  lemma {:induction false} RecordedIsReached(limit: int, log: seq<Queue>, trace: seq<Event>, q: Queue)
    requires Recorded(limit, log, trace, q)
    ensures q == After(limit, trace)
    decreases |trace|
  {
    if trace != [] {
      var n := |trace| - 1;
      var shorter, fewer := log[..n + 1], trace[..n];
      forall i: nat | i < n ensures Link(shorter, fewer, i) {
        assert Link(log, trace, i);
      }
      RecordedIsReached(limit, shorter, fewer, log[n]);
      assert Link(log, trace, n);
    }
  }

  // ------------------------------------------------------------------ batch claims

  method Smallest(ids: set<Id>) returns (least: Id)
    requires ids != {}
    ensures least in ids && forall id :: id in ids ==> AtMost(least, id)
  {
    var rest := ids;
    least :| least in rest;
    rest := rest - {least};
    while rest != {}
      invariant rest <= ids && least in ids && least !in rest
      invariant forall id :: id in ids && id !in rest ==> AtMost(least, id)
    {
      var id :| id in rest;
      rest := rest - {id};
      if Less(id, least) {
        least := id;
      }
    }
  }

  predicate Ascending(ids: seq<Id>) {
    forall i, j :: 0 <= i < j < |ids| ==> Less(ids[i], ids[j])
  }

  /** A delivery of this read: new, live, and within what the cursor has passed. */
  predicate Given(task: Task, start: Id, cursor: Id, live: map<Id, Fields>) {
    && task.id in live && Less(start, task.id) && AtMost(task.id, cursor)
    && task == Task(task.id, live[task.id], 1, Received)
  }

  function Beaten(pending: map<Id, Lease>, t: nat, id: Id, attempt: nat, beats: bool): map<Id, Lease> {
    if beats && id in pending then pending[id := Lease(t, attempt)] else pending
  }

  /** The delivery as a dead letter would record it. */
  function AsGrave(task: Task): Grave {
    Grave(task.id, task.fields, task.attempt)
  }

  /** How a delivery's end leaves Redis: an acknowledged or dead-lettered entry is gone from stream
      and pending table, a dead letter is a full copy, a crash leaves everything as it was, and a
      replay's action follows. */
  function Ended(r: Redis, g: Grave, end: Handled, grave: Id): Redis {
    match end
    case Crashed => r
    case LeftRetrying => r.(replays := Marked(r.replays, g.fields, Retried))
    case Acked =>
      Redis(r.live - {g.original}, r.pending - {g.original}, r.graves, Marked(r.replays, g.fields, Acknowledged))
    case Buried =>
      Redis(r.live - {g.original}, r.pending - {g.original}, r.graves[grave := g],
            Marked(r.replays, g.fields, DeadLettered))
  }

  function BeatenView(r: Redis, t: nat, g: Grave, beats: bool): Redis {
    r.(pending := Beaten(r.pending, t, g.original, g.attempt, beats))
  }

  /** What a delivery does before its run: report a replay as being processed, and beat. */
  function BegunView(r: Redis, t: nat, g: Grave, beats: bool): Redis {
    if Parses(g.fields)
    then BeatenView(r.(replays := Marked(r.replays, g.fields, InProcess)), t, g, beats)
    else r
  }

  predicate InBatch(deliveries: seq<Task>, id: Id) {
    exists i :: 0 <= i < |deliveries| && deliveries[i].id == id
  }

  predicate Apart(ts: seq<nat>, ids: seq<Id>) {
    |ts| == |ids| && forall i, j :: 0 <= i < j < |ids| ==> ids[i] != ids[j] && ts[i] != ts[j]
  }

  function Reowned(pending: map<Id, Lease>, ts: seq<nat>, ids: seq<Id>): map<Id, Lease>
    requires |ts| == |ids|
    decreases |ids|
  {
    if ids == [] then pending
    else
      var n := |ids| - 1;
      var count := if ids[n] in pending then pending[ids[n]].count else 0;
      Reowned(pending, ts[..n], ids[..n])[ids[n] := Lease(ts[n], count + 1)]
  }

  function WithClaims(tasks: map<nat, Task>, live: map<Id, Fields>, ts: seq<nat>, ids: seq<Id>): map<nat, Task>
    requires |ts| == |ids| && forall i :: 0 <= i < |ids| ==> ids[i] in live
    decreases |ids|
  {
    if ids == [] then tasks
    else
      var n := |ids| - 1;
      WithClaims(tasks, live, ts[..n], ids[..n])[ts[n] := Task(ids[n], live[ids[n]], 0, Claiming)]
  }

  lemma ApartFrom(ts: seq<nat>, ids: seq<Id>, k: nat)
    requires Apart(ts, ids) && k < |ids|
    ensures ts[k] !in ts[..k] && ids[k] !in ids[..k]
  {
  }

  lemma {:induction false} ClaimsSoFar(pending: map<Id, Lease>, tasks: map<nat, Task>, live: map<Id, Fields>,
                                       ts: seq<nat>, ids: seq<Id>)
    requires |ts| == |ids| && forall i :: 0 <= i < |ids| ==> ids[i] in live
    ensures forall id :: id in pending && id !in ids ==>
              id in Reowned(pending, ts, ids) && Reowned(pending, ts, ids)[id] == pending[id]
    ensures forall t :: t !in tasks && t !in ts ==> t !in WithClaims(tasks, live, ts, ids)
    decreases |ids|
  {
    if ids != [] {
      var n := |ids| - 1;
      ClaimsSoFar(pending, tasks, live, ts[..n], ids[..n]);
    }
  }

  /** Each entry of a batch has its own new owner and one more delivery. */
  lemma {:induction false} ClaimsAt(pending: map<Id, Lease>, tasks: map<nat, Task>, live: map<Id, Fields>,
                                    ts: seq<nat>, ids: seq<Id>, i: nat)
    requires Apart(ts, ids) && (forall j :: 0 <= j < |ids| ==> ids[j] in live && ids[j] in pending) && i < |ids|
    ensures ids[i] in Reowned(pending, ts, ids)
              && Reowned(pending, ts, ids)[ids[i]] == Lease(ts[i], pending[ids[i]].count + 1)
    ensures ts[i] in WithClaims(tasks, live, ts, ids)
    ensures WithClaims(tasks, live, ts, ids)[ts[i]] == Task(ids[i], live[ids[i]], 0, Claiming)
    decreases |ids|
  {
    var n := |ids| - 1;
    if i < n {
      ClaimsAt(pending, tasks, live, ts[..n], ids[..n], i);
    }
  }

  /** Does the workflow call raise, given the row it reads? */
  predicate WorkflowRaises(fields: Fields, row: Processing, run: RunFate) {
    || run == RaisesBeforeRecords || run == RaisesBeforeRow
    || (row == RunFailed && fields.context.None?)
    || (!Short(row) && (run == RaisesInGraph || run == RaisesAtRow))
  }

  predicate RunFailedBefore(rows: map<Key, Processing>, fields: Fields) {
    Parses(fields) && KeyOf(fields) in rows && rows[KeyOf(fields)] == RunFailed
  }

  predicate SettledBefore(rows: map<Key, Processing>, fields: Fields) {
    Parses(fields) && KeyOf(fields) in rows && rows[KeyOf(fields)] in {Complete, AwaitingReview}
  }

  /** The run raises before its row is read, or an ordinary delivery finds it failed, or it is not settled
      and its graph or its commit raises. A delivery that raises is buried at the limit and retried
      below it, any other is acknowledged, and a payload that does not parse is buried. */
  predicate EndsAs(limit: int, task: Task, rows: map<Key, Processing>, run: RunFate, end: Handled) {
    var raises := || run == RaisesBeforeRecords || run == RaisesBeforeRow
                  || (RunFailedBefore(rows, task.fields) && task.fields.context.None?)
                  || (!SettledBefore(rows, task.fields) && (run == RaisesInGraph || run == RaisesAtRow));
    && (end == Buried <==> !Parses(task.fields) || (raises && task.attempt >= limit))
    && (end == LeftRetrying <==> Parses(task.fields) && raises && task.attempt < limit)
    && (end == Acked <==> Parses(task.fields) && !raises)
  }

  lemma VerdictMeans(limit: int, task: Task, rows: map<Key, Processing>, run: RunFate)
    ensures EndsAs(limit, task, rows, run, Verdict(limit, task.fields, task.attempt, rows, run))
  {
  }

  /** How a delivery that is not cut short ends. */
  function Verdict(limit: int, fields: Fields, attempt: nat, rows: map<Key, Processing>, run: RunFate): Handled {
    if !Parses(fields) then Buried
    else if WorkflowRaises(fields, RowIn(rows, KeyOf(fields)), run) then
      if attempt >= limit then Buried else LeftRetrying
    else Acked
  }

  /** The row at the end: settled before an acknowledgement, failed before a dead letter, and never
      touched by an ordinary delivery that finds it failed; nobody else's row changes. */
  predicate RowsAfterEnd(before: map<Key, Processing>, after: map<Key, Processing>, fields: Fields, end: Handled) {
    if !Parses(fields) then after == before
    else
      var key := KeyOf(fields);
      && (end == Acked ==> key in after && Short(after[key]))
      && (end == Buried && key in after ==> after[key] == RunFailed)
      && (fields.context.None? && RowIn(before, key) == RunFailed ==> after == before)
      && (after == before || (key in after && after == before[key := after[key]]))
  }

  /** How the first look at the row leaves a delivery. */
  function Opened(fields: Fields, row: Processing, run: RunFate): Phase {
    if run == RaisesBeforeRecords || run == RaisesBeforeRow || (row == RunFailed && fields.context.None?) then Raised
    else if Short(row) then Settled
    else Admitted
  }

  lemma RowsOpened(before: map<Key, Processing>, entered: map<Key, Processing>, after: map<Key, Processing>,
                   fields: Fields, run: RunFate, returned: bool)
    requires Parses(fields)
    requires entered == before || (KeyOf(fields) !in before && entered == before[KeyOf(fields) := Running])
    requires after == entered || (KeyOf(fields) in after && after == entered[KeyOf(fields) := after[KeyOf(fields)]])
    requires Opened(fields, RowIn(before, KeyOf(fields)), run) != Admitted ==> after == entered
    requires returned ==> KeyOf(fields) in after && Short(after[KeyOf(fields)])
    ensures RowsAfterRun(before, after, fields, returned)
  {
  }

  lemma RowsThrough(before: map<Key, Processing>, between: map<Key, Processing>, after: map<Key, Processing>,
                    fields: Fields, returned: bool, marked: bool, end: Handled)
    requires Parses(fields) && RowsAfterRun(before, between, fields, returned)
    requires after == if marked && KeyOf(fields) in between then between[KeyOf(fields) := RunFailed] else between
    requires (end == Acked ==> returned && !marked) && (end == Buried ==> marked)
    ensures RowsAfterEnd(before, after, fields, end)
  {
  }

  /** What the workflow call leaves in the row: settled when it returns, and untouched when an
      ordinary delivery finds the run failed. */
  predicate RowsAfterRun(before: map<Key, Processing>, after: map<Key, Processing>, fields: Fields, returned: bool)
    requires Parses(fields)
  {
    var key := KeyOf(fields);
    && (returned ==> key in after && Short(after[key]))
    && (RowIn(before, key) == RunFailed && fields.context.None? ==> after == before)
    && (after == before || (key in after && after == before[key := after[key]]))
  }
}
