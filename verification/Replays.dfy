/** Operator replays under exclusive leases: what a dead letter entry's replay hash says is what the
    live stream shows, for as long as the entry is retained. */
module Replays {
  import opened Options
  import opened StreamIds
  import opened Delivery
  import opened Leases

  // -------------------------------------------------------------------- the invariant

  /** One action: it belongs to the entry its request created, is nonterminal exactly while that
      entry is live, and only the last request's action can be. */
  predicate ActionKept(live: map<Id, Fields>, h: History, context: Context, last: Option<Request>, a: Action) {
    && context in h.created && a.live == Some(h.created[context])
    && h.created[context] in h.appended && h.appended[h.created[context]].context == Some(context)
    && (Terminal(a.state) <==> h.created[context] !in live)
    && (last != Some(context.request) ==> Terminal(a.state))
  }

  predicate HashKept(live: map<Id, Fields>, h: History, dlq: Id, hash: ReplayHash) {
    && hash.count == |hash.actions|
    && (hash.last.None? ==> hash.actions == map[])
    && (hash.last.Some? ==> hash.last.value in hash.actions)
    && (forall r :: r in hash.actions ==> ActionKept(live, h, Context(dlq, r), hash.last, hash.actions[r]))
  }

  /** A live entry that came from a replay is the one its request created. */
  predicate EntryKept(dead: DeadStream, h: History, id: Id, fields: Fields) {
    match fields.context
    case None => true
    case Some(c) => c.dlq in h.everBuried && (c.dlq in dead.graves ==> c in h.created && h.created[c] == id)
  }

  predicate RequestKept(dead: DeadStream, h: History, c: Context) {
    c.dlq in h.everBuried && (c.dlq in dead.graves ==> c.request in HashIn(dead.replays, c.dlq).actions)
  }

  predicate HashesKept(live: map<Id, Fields>, dead: DeadStream, h: History) {
    && (forall d :: d in dead.replays ==> d in h.everBuried)
    && (forall d :: d in dead.graves ==> HashKept(live, h, d, HashIn(dead.replays, d)))
  }

  predicate EntriesKept(live: map<Id, Fields>, dead: DeadStream, h: History) {
    forall id :: id in live ==> EntryKept(dead, h, id, live[id])
  }

  predicate RequestsKept(dead: DeadStream, h: History) {
    forall c :: c in h.created ==> RequestKept(dead, h, c)
  }

  predicate ReplaysKept(live: map<Id, Fields>, dead: DeadStream, h: History) {
    HashesKept(live, dead, h) && EntriesKept(live, dead, h) && RequestsKept(dead, h)
  }

  // ------------------------------------------------------------- what keeps one hash

  lemma ReportedKept(live: map<Id, Fields>, h: History, dlq: Id, hash: ReplayHash, request: Request, state: ActionState)
    requires HashKept(live, h, dlq, hash) && request in hash.actions
    requires Context(dlq, request) in h.created && h.created[Context(dlq, request)] in live
    ensures var marked := hash.(actions := hash.actions[request := hash.actions[request].(state := state)]);
            var id := h.created[Context(dlq, request)];
            HashKept(if Terminal(state) then live - {id} else live, h, dlq, marked)
  {
    var marked := hash.(actions := hash.actions[request := hash.actions[request].(state := state)]);
    var id := h.created[Context(dlq, request)];
    var later := if Terminal(state) then live - {id} else live;
    assert marked.actions.Keys == hash.actions.Keys;
    assert |marked.actions| == |hash.actions|;
    forall r | r in marked.actions
      ensures ActionKept(later, h, Context(dlq, r), marked.last, marked.actions[r])
    {
      assert ActionKept(live, h, Context(dlq, r), hash.last, hash.actions[r]);
      assert ActionKept(live, h, Context(dlq, request), hash.last, hash.actions[request]);
    }
  }

  /** Another entry leaving the stream changes nothing for this hash. */
  lemma UntouchedKept(live: map<Id, Fields>, h: History, dlq: Id, hash: ReplayHash, id: Id)
    requires HashKept(live, h, dlq, hash) && id in h.appended
    requires forall r :: h.appended[id].context != Some(Context(dlq, r))
    ensures HashKept(live - {id}, h, dlq, hash)
  {
    forall r | r in hash.actions
      ensures ActionKept(live - {id}, h, Context(dlq, r), hash.last, hash.actions[r])
    {
      assert ActionKept(live, h, Context(dlq, r), hash.last, hash.actions[r]);
    }
  }

  /** A request that found no action of its own and no unfinished one adds the new last action. */
  lemma CreatedKept(live: map<Id, Fields>, h: History, dlq: Id, hash: ReplayHash, request: Request, id: Id,
                    fields: Fields, later: History)
    requires HashKept(live, h, dlq, hash) && request !in hash.actions
    requires hash.last.Some? ==> Terminal(hash.actions[hash.last.value].state)
    requires id !in h.appended && fields.context == Some(Context(dlq, request)) && Context(dlq, request) !in h.created
    requires later == h.(appended := h.appended[id := fields], created := h.created[Context(dlq, request) := id])
    ensures HashKept(live[id := fields], later, dlq, ReplayedHash(hash, request, id))
  {
    var after := ReplayedHash(hash, request, id);
    forall r | r in after.actions
      ensures ActionKept(live[id := fields], later, Context(dlq, r), after.last, after.actions[r])
    {
      if r != request {
        assert ActionKept(live, h, Context(dlq, r), hash.last, hash.actions[r]);
      }
    }
  }

  /** A new entry elsewhere changes nothing for this hash. */
  lemma FreshKept(live: map<Id, Fields>, h: History, dlq: Id, hash: ReplayHash, id: Id, fields: Fields, later: History)
    requires HashKept(live, h, dlq, hash) && id !in h.appended
    requires later.appended == h.appended[id := fields]
    requires later.created == h.created
          || exists c: Context :: c.dlq != dlq && later.created == h.created[c := id]
    ensures HashKept(live[id := fields], later, dlq, hash)
  {
    forall r | r in hash.actions
      ensures ActionKept(live[id := fields], later, Context(dlq, r), hash.last, hash.actions[r])
    {
      assert ActionKept(live, h, Context(dlq, r), hash.last, hash.actions[r]);
    }
  }

  // ----------------------------------------------------------------- what keeps them all

  predicate LiveRecorded(live: map<Id, Fields>, h: History) {
    forall id :: id in live ==> id in h.appended && h.appended[id] == live[id]
  }

  /** A worker reports on its entry's action, and a terminal report takes the entry away. */
  lemma MarkKept(live: map<Id, Fields>, dead: DeadStream, h: History, id: Id, state: ActionState,
                 later: map<Id, Fields>, marked: map<Id, ReplayHash>)
    requires LiveRecorded(live, h) && ReplaysKept(live, dead, h) && id in live
    requires later == if Terminal(state) then live - {id} else live
    requires marked == Marked(dead.replays, live[id], state)
    ensures ReplaysKept(later, dead.(replays := marked), h)
  {
    MarkHashes(live, dead, h, id, state, later, marked);
    FewerEntries(live, dead, h, later, dead.(replays := marked), h);
    MoreRequests(dead, h, dead.(replays := marked), h);
  }

  lemma MarkHashes(live: map<Id, Fields>, dead: DeadStream, h: History, id: Id, state: ActionState,
                   later: map<Id, Fields>, marked: map<Id, ReplayHash>)
    requires LiveRecorded(live, h) && ReplaysKept(live, dead, h) && id in live
    requires later == if Terminal(state) then live - {id} else live
    requires marked == Marked(dead.replays, live[id], state)
    ensures HashesKept(later, dead.(replays := marked), h)
    ensures forall d :: HashIn(dead.replays, d).actions.Keys <= HashIn(marked, d).actions.Keys
  {
    assert EntryKept(dead, h, id, live[id]);
    forall d | d in dead.graves
      ensures HashKept(later, h, d, HashIn(marked, d))
    {
      MarkHash(live, dead, h, id, state, later, marked, d);
    }
  }

  /** Entries stay linked when some leave, and dead letters are added or purged. */
  lemma FewerEntries(live: map<Id, Fields>, dead: DeadStream, h: History, later: map<Id, Fields>, after: DeadStream,
                     newer: History)
    requires EntriesKept(live, dead, h)
    requires later.Keys <= live.Keys && forall x :: x in later ==> later[x] == live[x]
    requires h.everBuried.Keys <= newer.everBuried.Keys && newer.created == h.created
    requires forall d :: d in after.graves && d in h.everBuried ==> d in dead.graves
    ensures EntriesKept(later, after, newer)
  {
    forall x | x in later ensures EntryKept(after, newer, x, later[x]) {
      assert EntryKept(dead, h, x, live[x]);
    }
  }

  /** Requests stay recorded when no retained hash loses an action. */
  lemma MoreRequests(dead: DeadStream, h: History, after: DeadStream, newer: History)
    requires RequestsKept(dead, h) && newer.created == h.created && h.everBuried.Keys <= newer.everBuried.Keys
    requires forall d :: d in after.graves && d in h.everBuried ==>
               d in dead.graves && HashIn(dead.replays, d).actions.Keys <= HashIn(after.replays, d).actions.Keys
    ensures RequestsKept(after, newer)
  {
    forall c | c in newer.created ensures RequestKept(after, newer, c) {
      assert RequestKept(dead, h, c);
    }
  }

  lemma MarkHash(live: map<Id, Fields>, dead: DeadStream, h: History, id: Id, state: ActionState,
                 later: map<Id, Fields>, marked: map<Id, ReplayHash>, d: Id)
    requires LiveRecorded(live, h) && ReplaysKept(live, dead, h) && id in live && d in dead.graves
    requires later == if Terminal(state) then live - {id} else live
    requires marked == Marked(dead.replays, live[id], state)
    ensures HashKept(later, h, d, HashIn(marked, d))
  {
    var context := live[id].context;
    assert EntryKept(dead, h, id, live[id]);
    assert HashKept(live, h, d, HashIn(dead.replays, d));
    if context.Some? && context.value.dlq == d {
      assert RequestKept(dead, h, context.value);
      ReportedKept(live, h, d, HashIn(dead.replays, d), context.value.request, state);
    } else if Terminal(state) {
      UntouchedKept(live, h, d, HashIn(dead.replays, d), id);
    }
  }

  /** A new grave starts with no replay hash. */
  lemma GraveKept(live: map<Id, Fields>, dead: DeadStream, h: History, grave: Id, g: Grave, later: History)
    requires ReplaysKept(live, dead, h) && grave !in h.everBuried
    requires later == h.(everBuried := h.everBuried[grave := g], buried := later.buried)
    ensures ReplaysKept(live, dead.(graves := dead.graves[grave := g], last := grave), later)
  {
    var after := dead.(graves := dead.graves[grave := g], last := grave);
    forall d | d in after.graves ensures HashKept(live, later, d, HashIn(after.replays, d)) {
      if d == grave {
        assert HashIn(after.replays, d) == NO_REPLAYS;
      } else {
        HashSame(live, h, d, HashIn(dead.replays, d), later);
      }
    }
    FewerEntries(live, dead, h, live, after, later);
    MoreRequests(dead, h, after, later);
  }

  lemma HashSame(live: map<Id, Fields>, h: History, dlq: Id, hash: ReplayHash, later: History)
    requires HashKept(live, h, dlq, hash) && later.created == h.created && later.appended == h.appended
    ensures HashKept(live, later, dlq, hash)
  {
    forall r | r in hash.actions ensures ActionKept(live, later, Context(dlq, r), hash.last, hash.actions[r]) {
      assert ActionKept(live, h, Context(dlq, r), hash.last, hash.actions[r]);
    }
  }

  lemma ArrivalKept(live: map<Id, Fields>, dead: DeadStream, h: History, id: Id, fields: Fields, later: History)
    requires ReplaysKept(live, dead, h) && id !in h.appended && fields.context.None?
    requires later == h.(appended := h.appended[id := fields])
    ensures ReplaysKept(live[id := fields], dead, later)
  {
    var grown := live[id := fields];
    forall d | d in dead.graves ensures HashKept(grown, later, d, HashIn(dead.replays, d)) {
      FreshKept(live, h, d, HashIn(dead.replays, d), id, fields, later);
    }
    forall x | x in grown ensures EntryKept(dead, later, x, grown[x]) {
      if x != id {
        assert EntryKept(dead, h, x, live[x]);
      }
    }
    MoreRequests(dead, h, dead, later);
  }

  /** Fewer graves, each with its hash as it was. */
  lemma RetainedKept(live: map<Id, Fields>, dead: DeadStream, h: History, after: DeadStream, later: History)
    requires ReplaysKept(live, dead, h)
    requires after.graves.Keys <= dead.graves.Keys && after.replays.Keys <= dead.replays.Keys
    requires forall d :: d in after.graves ==> HashIn(after.replays, d) == HashIn(dead.replays, d)
    requires later.created == h.created && later.appended == h.appended && later.everBuried == h.everBuried
    ensures ReplaysKept(live, after, later)
  {
    forall d | d in after.graves ensures HashKept(live, later, d, HashIn(after.replays, d)) {
      HashSame(live, h, d, HashIn(dead.replays, d), later);
    }
    FewerEntries(live, dead, h, live, after, later);
    MoreRequests(dead, h, after, later);
  }

  /** The script only creates for a request that never created before, behind finished ones. */
  lemma OnlyNewRequests(live: map<Id, Fields>, dead: DeadStream, h: History, dlq: Id, request: Request,
                        evidence: Fields, id: Id)
    requires ReplaysKept(live, dead, h) && ReplayReply(dead, dlq, request, evidence, id).Created?
    ensures Context(dlq, request) !in h.created && request !in HashIn(dead.replays, dlq).actions
    ensures dlq in dead.graves && HashKept(live, h, dlq, HashIn(dead.replays, dlq))
    ensures var hash := HashIn(dead.replays, dlq);
            hash.last.Some? ==> hash.last.value in hash.actions && Terminal(hash.actions[hash.last.value].state)
  {
    var hash := HashIn(dead.replays, dlq);
    assert HashKept(live, h, dlq, hash);
    assert request in hash.actions ==> ActionKept(live, h, Context(dlq, request), hash.last, hash.actions[request]);
    assert Context(dlq, request) in h.created ==> RequestKept(dead, h, Context(dlq, request));
  }

  lemma ReplayKept(live: map<Id, Fields>, dead: DeadStream, h: History, c: Context, id: Id,
                   fields: Fields, after: DeadStream, later: History)
    requires ReplaysKept(live, dead, h) && id !in h.appended && c.dlq in h.everBuried && c !in h.created
    requires c.dlq in dead.graves && fields.context == Some(c)
    requires after.graves == dead.graves
              && after.replays == dead.replays[c.dlq := ReplayedHash(HashIn(dead.replays, c.dlq), c.request, id)]
    requires later == h.(appended := h.appended[id := fields], created := h.created[c := id])
    requires HashKept(live[id := fields], later, c.dlq, after.replays[c.dlq])
    ensures ReplaysKept(live[id := fields], after, later)
  {
    OtherHashes(live, dead, h, c, id, fields, after, later);
    OtherEntries(live, dead, h, c, id, fields, after, later);
    forall r | r in later.created ensures RequestKept(after, later, r) {
      if r != c {
        assert RequestKept(dead, h, r);
      }
    }
  }

  lemma OtherHashes(live: map<Id, Fields>, dead: DeadStream, h: History, c: Context, id: Id,
                    fields: Fields, after: DeadStream, later: History)
    requires HashesKept(live, dead, h) && id !in h.appended && c.dlq in h.everBuried
    requires after.graves == dead.graves && c.dlq in after.replays
              && after.replays == dead.replays[c.dlq := after.replays[c.dlq]]
    requires later == h.(appended := h.appended[id := fields], created := h.created[c := id])
    requires HashKept(live[id := fields], later, c.dlq, after.replays[c.dlq])
    ensures HashesKept(live[id := fields], after, later)
  {
    forall d | d in after.graves ensures HashKept(live[id := fields], later, d, HashIn(after.replays, d)) {
      if d != c.dlq {
        FreshKept(live, h, d, HashIn(dead.replays, d), id, fields, later);
      }
    }
  }

  lemma OtherEntries(live: map<Id, Fields>, dead: DeadStream, h: History, c: Context, id: Id,
                     fields: Fields, after: DeadStream, later: History)
    requires EntriesKept(live, dead, h) && c.dlq in h.everBuried && c !in h.created && c.dlq in dead.graves
    requires after.graves == dead.graves && fields.context == Some(c)
    requires later == h.(appended := h.appended[id := fields], created := h.created[c := id])
    ensures EntriesKept(live[id := fields], after, later)
  {
    var grown := live[id := fields];
    forall x | x in grown ensures EntryKept(after, later, x, grown[x]) {
      if x != id {
        assert EntryKept(dead, h, x, live[x]);
      }
    }
  }

  // ------------------------------------------------------------------------- the steps

  lemma OutsideReplays(q: Queue, e: Event, after: Queue)
    requires Kept(q) && ReplaysKept(q.stream.live, q.dead, q.h) && !OfTask(e) && after == OutsideStep(q, e)
    ensures ReplaysKept(after.stream.live, after.dead, after.h)
  {
    match e
    case Enqueue(key, id) =>
      if after != q {
        FreshIds(q, id, ZERO);
        ArrivalKept(q.stream.live, q.dead, q.h, id, Fields(Some(Job(key)), None), after.h);
      }
    case ForeignEntry(fields, id) =>
      if after != q {
        FreshIds(q, id, ZERO);
        ArrivalKept(q.stream.live, q.dead, q.h, id, fields, after.h);
      }
    case Replay(dlq, request, evidence, id) =>
      if after != q {
        FreshIds(q, id, ZERO);
        var fields := Fields(evidence.payload, Some(Context(dlq, request)));
        OnlyNewRequests(q.stream.live, q.dead, q.h, dlq, request, evidence, id);
        CreatedKept(q.stream.live, q.h, dlq, HashIn(q.dead.replays, dlq), request, id, fields, after.h);
        ReplayKept(q.stream.live, q.dead, q.h, Context(dlq, request), id, fields, after.dead, after.h);
      }
    case Purge(dlqs) =>
      if after != q {
        RetainedKept(q.stream.live, q.dead, q.h, after.dead, after.h);
      }
    case _ =>
  }

  lemma BuryReplays(q: Queue, t: nat, task: Task, grave: Id, after: Queue)
    requires Kept(q) && ReplaysKept(q.stream.live, q.dead, q.h) && t in q.tasks && q.tasks[t] == task
    requires task.id in q.stream.live && after == BuryStep(q, t, task, grave)
    ensures ReplaysKept(after.stream.live, after.dead, after.h)
  {
    if after != q {
      assert TaskKept(task, q.stream.cursor, q.h.appended, q.h.settled);
      FreshIds(q, ZERO, grave);
      MarkKept(q.stream.live, q.dead, q.h, task.id, DeadLettered, after.stream.live, after.dead.replays);
      GraveKept(after.stream.live, q.dead.(replays := after.dead.replays), q.h, grave, after.dead.graves[grave],
          after.h);
      assert after.dead == q.dead.(replays := after.dead.replays).(graves := after.dead.graves, last := grave);
    }
  }

  /** What any other step of a task does to the replay state: nothing, or one report. */
  predicate Reports(q: Queue, task: Task, report: Option<ActionState>, after: Queue) {
    && after.stream.live ==
          (if report.Some? && Terminal(report.value) then q.stream.live - {task.id} else q.stream.live)
    && after.dead.replays ==
          (if report.Some? then Marked(q.dead.replays, task.fields, report.value) else q.dead.replays)
    && after.dead.graves == q.dead.graves
    && after.h.created == q.h.created && after.h.appended == q.h.appended && after.h.everBuried == q.h.everBuried
  }

  lemma ReportingShape(q: Queue, e: Event, t: nat, task: Task, after: Queue) returns (report: Option<ActionState>)
    requires t in q.tasks && q.tasks[t] == task && after == TaskStep(q, e, t, task)
    requires e.Begin? || e.RecordFailure? || e.Ack?
    ensures Reports(q, task, report, after)
  {
    report := if after == q || (after.dead.replays == q.dead.replays && !e.Ack?) then None
              else Some(if e.Begin? then InProcess else if e.RecordFailure? then Retried else Acknowledged);
  }

  lemma ReportShape(q: Queue, e: Event, t: nat, task: Task, after: Queue) returns (report: Option<ActionState>)
    requires t in q.tasks && q.tasks[t] == task && after == TaskStep(q, e, t, task) && !e.Bury?
    ensures Reports(q, task, report, after)
  {
    if e.Begin? || e.RecordFailure? || e.Ack? {
      report := ReportingShape(q, e, t, task, after);
    } else {
      report := None;
    }
  }

  lemma ReportReplays(q: Queue, task: Task, report: Option<ActionState>, after: Queue)
    requires LiveRecorded(q.stream.live, q.h) && ReplaysKept(q.stream.live, q.dead, q.h)
    requires task.id in q.stream.live && q.stream.live[task.id] == task.fields && Reports(q, task, report, after)
    ensures ReplaysKept(after.stream.live, after.dead, after.h)
  {
    if report.Some? {
      MarkKept(q.stream.live, q.dead, q.h, task.id, report.value, after.stream.live, after.dead.replays);
    }
    RetainedKept(after.stream.live, q.dead.(replays := after.dead.replays), q.h, after.dead, after.h);
  }

  lemma TaskReplays(q: Queue, e: Event, t: nat, task: Task, after: Queue)
    requires Kept(q) && Held(q.stream.pending, q.tasks) && ReplaysKept(q.stream.live, q.dead, q.h)
    requires t in q.tasks && q.tasks[t] == task && after == TaskStep(q, e, t, task)
    ensures ReplaysKept(after.stream.live, after.dead, after.h)
  {
    HoldingIsLive(q, t);
    assert TaskKept(task, q.stream.cursor, q.h.appended, q.h.settled);
    if e.Bury? {
      BuryReplays(q, t, task, e.grave, after);
    } else {
      var report := ReportShape(q, e, t, task, after);
      ReportReplays(q, task, report, after);
    }
  }

  lemma {:induction false} EveryExclusiveReplay(limit: int, trace: seq<Event>) returns (q: Queue)
    requires ExclusiveRun(limit, trace)
    ensures q == After(limit, trace) && Kept(q) && ReplaysKept(q.stream.live, q.dead, q.h)
    decreases |trace|
  {
    q := EveryExclusiveRun(limit, trace);
    if trace != [] {
      var n := |trace| - 1;
      var before := EveryExclusiveReplay(limit, trace[..n]);
      var held := EveryExclusiveRun(limit, trace[..n]);
      StepReplays(before, trace[n], q);
    }
  }

  lemma StepReplays(q: Queue, e: Event, after: Queue)
    requires Kept(q) && Held(q.stream.pending, q.tasks) && ReplaysKept(q.stream.live, q.dead, q.h)
    requires after == Next(q, e)
    ensures ReplaysKept(after.stream.live, after.dead, after.h)
  {
    if !OfTask(e) {
      OutsideReplays(q, e, after);
    } else if e.t in q.tasks {
      TaskReplays(q, e, e.t, q.tasks[e.t], after);
    }
  }

  // ----------------------------------------------------------------------- the results

  /** For every retained dead letter entry in every exclusive run: an action is nonterminal exactly
      while the entry its request created is live, only the last request's can be, and the replay
      count is the number of distinct requests that created one. */
  lemma ReplayInvariant(limit: int, trace: seq<Event>, dlq: Id) returns (q: Queue, hash: ReplayHash)
    requires ExclusiveRun(limit, trace)
    requires dlq in After(limit, trace).dead.graves
    ensures q == After(limit, trace) && hash == HashIn(q.dead.replays, dlq)
    ensures hash.actions.Keys == (set c | c in q.h.created && c.dlq == dlq :: c.request)
    ensures hash.count == |hash.actions|
    ensures forall r :: r in hash.actions ==>
              && hash.actions[r].live == Some(q.h.created[Context(dlq, r)])
              && (!Terminal(hash.actions[r].state) <==> q.h.created[Context(dlq, r)] in q.stream.live)
              && (!Terminal(hash.actions[r].state) ==> hash.last == Some(r))
  {
    q := EveryExclusiveReplay(limit, trace);
    hash := HashIn(q.dead.replays, dlq);
    ActionsAreRequests(q, dlq, hash);
    forall r | r in hash.actions
      ensures && hash.actions[r].live == Some(q.h.created[Context(dlq, r)])
              && (!Terminal(hash.actions[r].state) <==> q.h.created[Context(dlq, r)] in q.stream.live)
              && (!Terminal(hash.actions[r].state) ==> hash.last == Some(r))
    {
      assert ActionKept(q.stream.live, q.h, Context(dlq, r), hash.last, hash.actions[r]);
    }
  }

  /** No entry that an earlier replay of this one created is still live. */
  predicate AllFinished(q: Queue, dlq: Id) {
    forall c :: c in q.h.created && c.dlq == dlq ==> q.h.created[c] !in q.stream.live
  }

  lemma NewRequestReply(q: Queue, dlq: Id, request: Request, id: Id, hash: ReplayHash)
    requires dlq in q.dead.graves && hash == HashIn(q.dead.replays, dlq) && request !in hash.actions
    requires hash.last.Some? ==> hash.last.value in hash.actions
    requires hash.actions.Keys == set c | c in q.h.created && c.dlq == dlq :: c.request
    requires forall r :: r in hash.actions ==>
               && (!Terminal(hash.actions[r].state) <==> q.h.created[Context(dlq, r)] in q.stream.live)
               && (!Terminal(hash.actions[r].state) ==> hash.last == Some(r))
    ensures ReplayReply(q.dead, dlq, request, q.dead.graves[dlq].fields, id)
         == if AllFinished(q, dlq) then Created(id, hash.count + 1) else InProgress
  {
    if !AllFinished(q, dlq) {
      var c :| c in q.h.created && c.dlq == dlq && q.h.created[c] in q.stream.live;
      assert c.request in hash.actions.Keys && c == Context(dlq, c.request);
      assert !Terminal(hash.actions[c.request].state);
    } else if hash.last.Some? {
      assert hash.last.value in hash.actions.Keys;
      assert Context(dlq, hash.last.value) in q.h.created;
      assert Terminal(hash.actions[hash.last.value].state);
    }
  }

  lemma CreatedIsLive(q: Queue, dlq: Id, request: Request, evidence: Fields, id: Id, after: Queue)
    requires after == Next(q, Replay(dlq, request, evidence, id)) && Parses(evidence) && Less(q.stream.last, id)
    ensures ReplayReply(q.dead, dlq, request, evidence, id).Created? ==>
              after.stream.live == q.stream.live[id := Fields(evidence.payload, Some(Context(dlq, request)))]
    ensures !ReplayReply(q.dead, dlq, request, evidence, id).Created? ==> after == q
  {
  }

  /** When a new request replays a retained entry: exactly when every entry its earlier requests created
      has been acknowledged or dead-lettered. Then its job is live again under the new id, and it is
      counted. */
  lemma NewRequestCreatesIff(limit: int, trace: seq<Event>, q: Queue, dlq: Id, request: Request, id: Id)
    returns (after: Queue, requests: set<Request>)
    requires ExclusiveRun(limit, trace) && q == After(limit, trace) && dlq in q.dead.graves
    requires Parses(q.dead.graves[dlq].fields) && Less(q.stream.last, id)
    requires Context(dlq, request) !in q.h.created
    ensures after == Next(q, Replay(dlq, request, q.dead.graves[dlq].fields, id))
    ensures requests == set c | c in q.h.created && c.dlq == dlq :: c.request
    ensures ReplayReply(q.dead, dlq, request, q.dead.graves[dlq].fields, id)
         == if AllFinished(q, dlq) then Created(id, |requests| + 1) else InProgress
    ensures AllFinished(q, dlq) ==>
              after.stream.live ==
                q.stream.live[id := Fields(q.dead.graves[dlq].fields.payload, Some(Context(dlq, request)))]
    ensures !AllFinished(q, dlq) ==> after == q
  {
    requests := NewRequestOf(limit, trace, q, dlq, request, id);
    after := Next(q, Replay(dlq, request, q.dead.graves[dlq].fields, id));
    CreatedIsLive(q, dlq, request, q.dead.graves[dlq].fields, id, after);
  }

  lemma NewRequestOf(limit: int, trace: seq<Event>, q: Queue, dlq: Id, request: Request, id: Id)
    returns (requests: set<Request>)
    requires ExclusiveRun(limit, trace) && q == After(limit, trace) && dlq in q.dead.graves
    requires Context(dlq, request) !in q.h.created
    ensures requests == set c | c in q.h.created && c.dlq == dlq :: c.request
    ensures ReplayReply(q.dead, dlq, request, q.dead.graves[dlq].fields, id)
         == if AllFinished(q, dlq) then Created(id, |requests| + 1) else InProgress
  {
    var same, hash := ReplayInvariant(limit, trace, dlq);
    requests := hash.actions.Keys;
    assert request !in requests && |hash.actions| == |requests|;
    LastIsAction(limit, trace, q, dlq);
    NewRequestReply(q, dlq, request, id, hash);
  }

  lemma LastIsAction(limit: int, trace: seq<Event>, q: Queue, dlq: Id)
    requires ExclusiveRun(limit, trace) && q == After(limit, trace) && dlq in q.dead.graves
    ensures var hash := HashIn(q.dead.replays, dlq); hash.last.Some? ==> hash.last.value in hash.actions
  {
    var same := EveryExclusiveReplay(limit, trace);
    assert HashKept(q.stream.live, q.h, dlq, HashIn(q.dead.replays, dlq));
  }

  lemma ActionsAreRequests(q: Queue, dlq: Id, hash: ReplayHash)
    requires HashesKept(q.stream.live, q.dead, q.h) && RequestsKept(q.dead, q.h)
    requires dlq in q.dead.graves && hash == HashIn(q.dead.replays, dlq)
    ensures HashKept(q.stream.live, q.h, dlq, hash)
    ensures hash.actions.Keys == (set c | c in q.h.created && c.dlq == dlq :: c.request)
  {
    forall r ensures r in hash.actions <==> Context(dlq, r) in q.h.created {
      assert r in hash.actions ==> ActionKept(q.stream.live, q.h, Context(dlq, r), hash.last, hash.actions[r]);
      assert Context(dlq, r) in q.h.created ==> RequestKept(q.dead, q.h, Context(dlq, r));
    }
  }

  // ---------------------------------- repeated requests, with any number of workers

  /** The hash of a retained entry still has the action its request created. */
  predicate Remembered(dead: DeadStream, h: History, c: Context, id: Id) {
    && c.dlq in h.everBuried
    && (c.dlq in dead.graves ==>
          c.request in HashIn(dead.replays, c.dlq).actions
              && HashIn(dead.replays, c.dlq).actions[c.request].live == Some(id))
  }

  predicate AllRemembered(dead: DeadStream, h: History) {
    forall c :: c in h.created ==> Remembered(dead, h, c, h.created[c])
  }

  lemma MarkRemembers(dead: DeadStream, h: History, fields: Fields, state: ActionState, c: Context, id: Id)
    requires Remembered(dead, h, c, id)
    ensures Remembered(dead.(replays := Marked(dead.replays, fields, state)), h, c, id)
  {
    if fields.context.Some? {
      MarkTouchesOneState(dead.replays, fields.context.value, fields, state, Marked(dead.replays, fields, state));
    }
  }

  /** What a step can do to the dead letters: report, bury under a fresh id, or neither. */
  lemma TaskRemembers(q: Queue, e: Event, t: nat, task: Task, after: Queue, c: Context)
    requires Kept(q) && t in q.tasks && q.tasks[t] == task && after == TaskStep(q, e, t, task)
    requires c in q.h.created && Remembered(q.dead, q.h, c, q.h.created[c])
    ensures after.h.created == q.h.created && Remembered(after.dead, after.h, c, q.h.created[c])
  {
    if e.Bury? {
      BuryRemembers(q, t, task, e.grave, after, c);
    } else {
      var report := ReportShape(q, e, t, task, after);
      if report.Some? {
        MarkRemembers(q.dead, q.h, task.fields, report.value, c, q.h.created[c]);
      }
    }
  }

  lemma BuryRemembers(q: Queue, t: nat, task: Task, grave: Id, after: Queue, c: Context)
    requires Kept(q) && t in q.tasks && after == BuryStep(q, t, task, grave)
    requires c in q.h.created && Remembered(q.dead, q.h, c, q.h.created[c])
    ensures after.h.created == q.h.created && Remembered(after.dead, after.h, c, q.h.created[c])
  {
    FreshIds(q, ZERO, grave);
    MarkRemembers(q.dead, q.h, task.fields, DeadLettered, c, q.h.created[c]);
  }

  lemma ReplayShape(q: Queue, dlq: Id, request: Request, evidence: Fields, id: Id, after: Queue)
    requires after == ReplayStep(q, dlq, request, evidence, id) && after != q
    ensures ReplayReply(q.dead, dlq, request, evidence, id).Created? && after.dead.graves == q.dead.graves
    ensures after.h.created == q.h.created[Context(dlq, request) := id] && after.h.everBuried == q.h.everBuried
    ensures after.dead.replays == q.dead.replays[dlq := ReplayedHash(HashIn(q.dead.replays, dlq), request, id)]
  {
  }

  lemma CreatedShape(q: Queue, e: Event, after: Queue)
    requires !OfTask(e) && after == OutsideStep(q, e)
    ensures after.h.everBuried == q.h.everBuried
    ensures (after.h.created == q.h.created
             && after.dead.graves.Keys <= q.dead.graves.Keys
             && forall d :: d in after.dead.graves ==> HashIn(after.dead.replays, d) == HashIn(q.dead.replays, d))
         || (e.Replay? && ReplayReply(q.dead, e.dlq, e.request, e.evidence, e.id).Created?
             && after.h.created == q.h.created[Context(e.dlq, e.request) := e.id]
             && after.dead.graves == q.dead.graves
             && after.dead.replays ==
                   q.dead.replays[e.dlq := ReplayedHash(HashIn(q.dead.replays, e.dlq), e.request, e.id)])
  {
    if e.Replay? && after != q {
      ReplayShape(q, e.dlq, e.request, e.evidence, e.id, after);
    }
  }

  lemma OutsideRemembers(q: Queue, e: Event, after: Queue, c: Context)
    requires Kept(q) && AllRemembered(q.dead, q.h) && !OfTask(e) && after == OutsideStep(q, e) && c in after.h.created
    ensures Remembered(after.dead, after.h, c, after.h.created[c])
    ensures c in q.h.created ==> after.h.created[c] == q.h.created[c]
  {
    CreatedShape(q, e, after);
    assert c in q.h.created ==> Remembered(q.dead, q.h, c, q.h.created[c]);
  }

  lemma StepRemembers(q: Queue, e: Event, after: Queue)
    requires Kept(q) && AllRemembered(q.dead, q.h) && after == Next(q, e)
    ensures AllRemembered(after.dead, after.h)
    ensures forall c :: c in q.h.created ==> c in after.h.created && after.h.created[c] == q.h.created[c]
  {
    if !OfTask(e) {
      CreatedShape(q, e, after);
      forall c | c in after.h.created
        ensures Remembered(after.dead, after.h, c, after.h.created[c])
        ensures c in q.h.created ==> after.h.created[c] == q.h.created[c]
      {
        OutsideRemembers(q, e, after, c);
      }
    } else if e.t in q.tasks {
      forall c | c in q.h.created
        ensures after.h.created == q.h.created && Remembered(after.dead, after.h, c, q.h.created[c])
      {
        TaskRemembers(q, e, e.t, q.tasks[e.t], after, c);
      }
      TaskCreatesNothing(q, e, e.t, q.tasks[e.t], after);
    }
  }

  lemma TaskCreatesNothing(q: Queue, e: Event, t: nat, task: Task, after: Queue)
    requires t in q.tasks && q.tasks[t] == task && after == TaskStep(q, e, t, task)
    ensures after.h.created == q.h.created
  {
  }

  lemma {:induction false} EveryRunRemembers(limit: int, trace: seq<Event>) returns (q: Queue)
    ensures q == After(limit, trace) && Kept(q) && AllRemembered(q.dead, q.h)
    decreases |trace|
  {
    q := EveryRunKept(limit, trace);
    if trace != [] {
      var before := EveryRunRemembers(limit, trace[..|trace| - 1]);
      StepRemembers(before, trace[|trace| - 1], q);
    }
  }

  /** Repeating a request id returns the stream id its first use created, however many steps, and
      later replays of the same entry, lie between, and for any number of overlapping workers. */
  lemma {:induction false} RepeatReturnsOriginal(limit: int, trace: seq<Event>, n: nat, early: Queue, c: Context,
                                                 id: Id)
    returns (late: Queue)
    requires n <= |trace| && early == After(limit, trace[..n]) && c in early.h.created
    ensures late == After(limit, trace)
    ensures c in late.h.created && late.h.created[c] == early.h.created[c]
    ensures c.dlq in late.dead.graves ==>
              var reply := ReplayReply(late.dead, c.dlq, c.request, late.dead.graves[c.dlq].fields, id);
              reply.Existing? && reply.id == early.h.created[c]
    decreases |trace|
  {
    late := EveryRunRemembers(limit, trace);
    if n == |trace| {
      assert trace[..n] == trace;
    } else {
      var k := |trace| - 1;
      assert trace[..k][..n] == trace[..n];
      var before := RepeatReturnsOriginal(limit, trace[..k], n, early, c, id);
      CreatedStays(limit, trace, before, late);
    }
    assert Remembered(late.dead, late.h, c, late.h.created[c]);
  }

  lemma CreatedStays(limit: int, trace: seq<Event>, before: Queue, late: Queue)
    requires trace != [] && before == After(limit, trace[..|trace| - 1]) && late == After(limit, trace)
    ensures forall c :: c in before.h.created ==> c in late.h.created && late.h.created[c] == before.h.created[c]
  {
    var same := EveryRunRemembers(limit, trace[..|trace| - 1]);
    StepRemembers(same, trace[|trace| - 1], late);
  }
}
