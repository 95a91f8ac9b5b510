/** The delivery and replay protocol: one live stream with its consumer group, the dead letter
    stream with its replay hashes, the dedupe keys and the run rows. Every script and every
    transactional pipeline is one event; a worker may crash between any two. */
module Delivery {
  import opened Options
  import opened StreamIds
  import opened WorkflowGraph

  // ------------------------------------------------------------------------ entries

  type Key = string
  type Request = string

  /** A payload either decodes to a job, of which only the idempotency key matters, or never will. */
  datatype Payload = Job(key: Key) | Malformed(text: string)

  datatype Context = Context(dlq: Id, request: Request)

  datatype Fields = Fields(payload: Option<Payload>, context: Option<Context>)

  predicate Parses(fields: Fields) {
    fields.payload.Some? && fields.payload.value.Job?
  }

  function KeyOf(fields: Fields): Key
    requires Parses(fields)
  {
    fields.payload.value.key
  }

  datatype Lease = Lease(owner: nat, count: nat)

  datatype Grave = Grave(original: Id, fields: Fields, attempt: nat)

  datatype ActionState = Enqueued | InProcess | Retried | Acknowledged | DeadLettered

  predicate Terminal(state: ActionState) {
    state == Acknowledged || state == DeadLettered
  }

  datatype Action = Action(live: Option<Id>, state: ActionState)

  datatype ReplayHash = ReplayHash(count: nat, last: Option<Request>, actions: map<Request, Action>)

  const NO_REPLAYS := ReplayHash(0, None, map[])

  function HashIn(replays: map<Id, ReplayHash>, dlq: Id): ReplayHash {
    if dlq in replays then replays[dlq] else NO_REPLAYS
  }

  /** Set the state of an entry's replay action, creating whatever is missing. */
  function Marked(replays: map<Id, ReplayHash>, fields: Fields, state: ActionState): map<Id, ReplayHash> {
    match fields.context
    case None => replays
    case Some(c) =>
      var hash := HashIn(replays, c.dlq);
      var action := if c.request in hash.actions then hash.actions[c.request].(state := state) else Action(None, state);
      replays[c.dlq := hash.(actions := hash.actions[c.request := action])]
  }

  /** A report for an entry that came from a replay changes one thing, the state of that replay's
      action: no count, no last request, no live id, no other action and no other entry's hash. Only
      a hash or an action that is gone, as after a purge, is made anew. */
  lemma MarkTouchesOneState(replays: map<Id, ReplayHash>, c: Context, fields: Fields, state: ActionState,
                            after: map<Id, ReplayHash>)
    requires after == Marked(replays, fields, state) && fields.context == Some(c)
    ensures after.Keys == replays.Keys + {c.dlq}
    ensures forall d :: d in replays && d != c.dlq ==> after[d] == replays[d]
    ensures var was, now := HashIn(replays, c.dlq), after[c.dlq];
            && now.count == was.count && now.last == was.last && now.actions.Keys == was.actions.Keys + {c.request}
            && now.actions[c.request].state == state
            && now.actions[c.request].live == (if c.request in was.actions then was.actions[c.request].live else None)
            && forall r :: r in was.actions && r != c.request ==> now.actions[r] == was.actions[r]
  {
  }

  // -------------------------------------------------------------------------- state

  /** How far a worker has got with one delivery. */
  datatype Phase =
    | Claiming                  // reclaimed; its delivery count not read yet
    | Received
    | Working                   // records wanted; the run row not read yet
    | Admitted                  // past the first look at the row
    | InGraph
    | Raised
    | Doomed
    | Settled

  datatype Task = Task(id: Id, fields: Fields, attempt: nat, phase: Phase)

  /** What has happened so far. Nothing reads it. */
  datatype History = History(
    appended: map<Id, Fields>,
    acked: set<Id>,
    settled: set<Key>,                    // runs seen complete or awaiting review
    everBuried: map<Id, Grave>,
    buried: map<Id, Id>,                  // the last grave of each live id
    purged: set<Id>,
    failures: map<Id, nat>,               // recorded failures per entry
    created: map<Context, Id>)            // first live id of each replay request

  /** The live stream and its consumer group. */
  datatype Stream = Stream(live: map<Id, Fields>, last: Id, cursor: Id, pending: map<Id, Lease>)

  /** The dead letter stream and its metadata hashes. */
  datatype DeadStream = DeadStream(
    graves: map<Id, Grave>,
    last: Id,
    replays: map<Id, ReplayHash>,
    notes: map<Id, nat>)

  datatype Queue = Queue(
    limit: int,
    stream: Stream,
    dead: DeadStream,
    dedupe: map<Key, Id>,
    rows: map<Key, Processing>,
    tasks: map<nat, Task>,
    h: History)

  function Empty(limit: int): Queue {
    Queue(limit, Stream(map[], ZERO, ZERO, map[]), DeadStream(map[], ZERO, map[], map[]), map[], map[], map[],
          History(map[], {}, {}, map[], map[], {}, map[], map[]))
  }

  datatype Event =
    | Enqueue(key: Key, id: Id)
    | DedupeExpires(key: Key)
    | ForeignEntry(fields: Fields, id: Id)
    | ReadNew(t: nat, id: Id)
    | Reclaim(t: nat, id: Id)
    | ReadCount(t: nat)
    | Heartbeat(t: nat)
    | Begin(t: nat)
    | RowFails(t: nat)              // reading or committing the row raises
    | Create(t: nat)                // document and run of the job, unless they exist
    | Load(t: nat)
    | Reset(t: nat)
    | Throw(t: nat)
    | Commit(t: nat, outcome: Processing)
    | MarkFailed(t: nat)
    | RecordFailure(t: nat)
    | Ack(t: nat)
    | Bury(t: nat, grave: Id)
    | Crash(t: nat)
    | Review(key: Key)
    | Replay(dlq: Id, request: Request, evidence: Fields, id: Id)
    | Purge(dlqs: set<Id>)

  // ------------------------------------------------------------------- queue events

  /** Add a live entry under a fresh id. */
  function Appended(q: Queue, id: Id, fields: Fields): Queue {
    q.(stream := q.stream.(live := q.stream.live[id := fields], last := id),
        h := q.h.(appended := q.h.appended[id := fields]))
  }

  /** One script: an unexpired dedupe key, or a new entry and its dedupe key. */
  function EnqueueStep(q: Queue, key: Key, id: Id): Queue {
    if key in q.dedupe || !Less(q.stream.last, id) then q
    else Appended(q, id, Fields(Some(Job(key)), None)).(dedupe := q.dedupe[key := id])
  }

  /** Is this the next entry the group has not been given? */
  ghost predicate NextUnread(q: Queue, id: Id) {
    && id in q.stream.live && Less(q.stream.cursor, id)
    && (forall other :: other in q.stream.live && Less(q.stream.cursor, other) ==> AtMost(id, other))
  }

  ghost function ReadNewStep(q: Queue, t: nat, id: Id): Queue {
    if t in q.tasks || !NextUnread(q, id) then q
    else q.(stream := q.stream.(cursor := id, pending := q.stream.pending[id := Lease(t, 1)]),
            tasks := q.tasks[t := Task(id, q.stream.live[id], 1, Received)])
  }

  function ReclaimStep(q: Queue, t: nat, id: Id): Queue {
    if t in q.tasks || id !in q.stream.pending || id !in q.stream.live then q
    else q.(stream := q.stream.(pending := q.stream.pending[id := Lease(t, q.stream.pending[id].count + 1)]),
            tasks := q.tasks[t := Task(id, q.stream.live[id], 0, Claiming)])
  }

  function Moved(q: Queue, t: nat, phase: Phase): Queue
    requires t in q.tasks
  {
    q.(tasks := q.tasks[t := q.tasks[t].(phase := phase)])
  }

  function Done(q: Queue, t: nat): Queue {
    q.(tasks := q.tasks - {t})
  }

  function ReadCountStep(q: Queue, t: nat, task: Task): Queue {
    if task.phase != Claiming then q
    else q.(tasks := q.tasks[t := task.(phase := Received,
                                        attempt := if task.id in q.stream.pending
                                                   then q.stream.pending[task.id].count else 1)])
  }

  /** Keeps the lease and puts the delivery count back to this delivery's own. */
  function HeartbeatStep(q: Queue, t: nat, task: Task): Queue {
    if task.phase in {Claiming, Received, Settled} || task.id !in q.stream.pending then q
    else q.(stream := q.stream.(pending := q.stream.pending[task.id := Lease(t, task.attempt)]))
  }

  function BeginStep(q: Queue, t: nat, task: Task): Queue
    requires t in q.tasks
  {
    if task.phase != Received then q
    else if !Parses(task.fields) then Moved(q, t, Doomed)
    else Moved(q.(dead := q.dead.(replays := Marked(q.dead.replays, task.fields, InProcess))), t, Working)
  }

  // ----------------------------------------------------------------- the run's row

  function RowIn(rows: map<Key, Processing>, key: Key): Processing {
    if key in rows then rows[key] else Running
  }

  predicate Short(p: Processing) {
    p == Complete || p == AwaitingReview
  }

  predicate OfKey(fields: Fields, key: Key) {
    Parses(fields) && KeyOf(fields) == key
  }

  function CreateStep(q: Queue, t: nat, task: Task): Queue {
    if task.phase != Working || !Parses(task.fields) || KeyOf(task.fields) in q.rows then q
    else q.(rows := q.rows[KeyOf(task.fields) := Running])
  }

  /** The first look at the row. */
  function LoadStep(q: Queue, t: nat, task: Task): Queue
    requires t in q.tasks
  {
    if task.phase != Working || !Parses(task.fields) || KeyOf(task.fields) !in q.rows then q
    else
      var key := KeyOf(task.fields);
      if q.rows[key] == RunFailed && task.fields.context.None? then Moved(q, t, Raised)
      else if Short(q.rows[key]) then Moved(q.(h := q.h.(settled := q.h.settled + {key})), t, Settled)
      else Moved(q, t, Admitted)
  }

  /** The second look: an operator replay resets a failed run. */
  function ResetStep(q: Queue, t: nat, task: Task): Queue
    requires t in q.tasks
  {
    if task.phase != Admitted || !Parses(task.fields) then q
    else
      var key := KeyOf(task.fields);
      Moved(q.(rows := if task.fields.context.Some? && key in q.rows && q.rows[key] == RunFailed
                       then q.rows[key := Retrying] else q.rows), t, InGraph)
  }

  function ThrowStep(q: Queue, t: nat, task: Task): Queue
    requires t in q.tasks
  {
    if task.phase != InGraph || !Parses(task.fields) then q
    else Moved(q.(rows := q.rows[KeyOf(task.fields) := Retrying]), t, Raised)
  }

  function CommitStep(q: Queue, t: nat, task: Task, outcome: Processing): Queue
    requires t in q.tasks
  {
    if task.phase != InGraph || !Parses(task.fields) || !Short(outcome) then q
    else
      var key := KeyOf(task.fields);
      Moved(q.(rows := q.rows[key := outcome], h := q.h.(settled := q.h.settled + {key})), t, Settled)
  }

  /** Only a last attempt marks the run, and only when its row exists. */
  function MarkFailedStep(q: Queue, t: nat, task: Task): Queue
    requires t in q.tasks
  {
    if task.phase != Raised || task.attempt < q.limit || !Parses(task.fields) then q
    else
      var key := KeyOf(task.fields);
      Moved(q.(rows := if key in q.rows then q.rows[key := RunFailed] else q.rows), t, Doomed)
  }

  // ------------------------------------------------------------- ends of a delivery

  function FailuresOf(h: History, id: Id): nat {
    if id in h.failures then h.failures[id] else 0
  }

  function RecordFailureStep(q: Queue, t: nat, task: Task): Queue {
    if task.phase != Raised || task.attempt >= q.limit then q
    else Done(q.(dead := q.dead.(notes := q.dead.notes[task.id := task.attempt],
                                   replays := Marked(q.dead.replays, task.fields, Retried)),
                 h := q.h.(failures := q.h.failures[task.id := FailuresOf(q.h, task.id) + 1])), t)
  }

  function Removed(stream: Stream, id: Id): Stream {
    stream.(live := stream.live - {id}, pending := stream.pending - {id})
  }

  function AckStep(q: Queue, t: nat, task: Task): Queue {
    if task.phase != Settled then q
    else Done(q.(stream := Removed(q.stream, task.id),
                 dead := q.dead.(replays := Marked(q.dead.replays, task.fields, Acknowledged)),
                 h := q.h.(acked := q.h.acked + {task.id})), t)
  }

  function BuryStep(q: Queue, t: nat, task: Task, grave: Id): Queue {
    if task.phase != Doomed || !Less(q.dead.last, grave) then q
    else
      var g := Grave(task.id, task.fields, task.attempt);
      Done(q.(stream := Removed(q.stream, task.id),
              dead := q.dead.(graves := q.dead.graves[grave := g], last := grave,
                              replays := Marked(q.dead.replays, task.fields, DeadLettered)),
              h := q.h.(everBuried := q.h.everBuried[grave := g], buried := q.h.buried[task.id := grave])), t)
  }

  // ---------------------------------------------------------------- operator events

  datatype Reply =
    | NotFound
    | EvidenceChanged
    | Existing(id: Id, count: nat, state: ActionState)
    | InProgress
    | Created(id: Id, count: nat)

  /** What the replay script answers. */
  function ReplayReply(dead: DeadStream, dlq: Id, request: Request, evidence: Fields, id: Id): Reply {
    var hash := HashIn(dead.replays, dlq);
    if dlq !in dead.graves then NotFound
    else if dead.graves[dlq].fields != evidence then EvidenceChanged
    else if request in hash.actions && hash.actions[request].live.Some? then
      Existing(hash.actions[request].live.value, hash.count, hash.actions[request].state)
    else if hash.last.Some? && hash.last.value != request
            && hash.last.value in hash.actions && !Terminal(hash.actions[hash.last.value].state) then InProgress
    else Created(id, hash.count + 1)
  }

  /** The entry is retained with the fields the operator saw. */
  predicate Retained(graves: map<Id, Grave>, dlq: Id, evidence: Fields) {
    dlq in graves && graves[dlq].fields == evidence
  }

  /** This request created an entry before. */
  predicate AnsweredBefore(replays: map<Id, ReplayHash>, dlq: Id, request: Request) {
    dlq in replays && request in replays[dlq].actions && replays[dlq].actions[request].live.Some?
  }

  /** The last request was another one, and its entry is still enqueued, processing or retrying. */
  predicate OtherUnfinished(replays: map<Id, ReplayHash>, dlq: Id, request: Request) {
    && dlq in replays && replays[dlq].last.Some? && replays[dlq].last.value != request
    && replays[dlq].last.value in replays[dlq].actions
    && replays[dlq].actions[replays[dlq].last.value].state in {Enqueued, InProcess, Retried}
  }

  /** When each answer is given, and what it says. */
  ghost predicate ReplayAnswered(graves: map<Id, Grave>, replays: map<Id, ReplayHash>, dlq: Id, request: Request,
                                 evidence: Fields, id: Id, reply: Reply) {
    && (reply == NotFound <==> dlq !in graves)
    && (reply == EvidenceChanged <==> dlq in graves && graves[dlq].fields != evidence)
    && (reply.Existing? <==> Retained(graves, dlq, evidence) && AnsweredBefore(replays, dlq, request))
    && (reply.Existing? ==>
          var action := replays[dlq].actions[request];
          reply == Existing(action.live.value, replays[dlq].count, action.state))
    && (reply == InProgress <==>
          && Retained(graves, dlq, evidence)
          && !AnsweredBefore(replays, dlq, request) && OtherUnfinished(replays, dlq, request))
    && (reply.Created? <==>
          && Retained(graves, dlq, evidence)
          && !AnsweredBefore(replays, dlq, request) && !OtherUnfinished(replays, dlq, request))
    && (reply.Created? ==> reply == Created(id, 1 + if dlq in replays then replays[dlq].count else 0))
  }

  lemma ReplyMeans(dead: DeadStream, dlq: Id, request: Request, evidence: Fields, id: Id)
    ensures ReplayAnswered(dead.graves, dead.replays, dlq, request, evidence, id,
                           ReplayReply(dead, dlq, request, evidence, id))
  {
  }

  function ReplayedHash(hash: ReplayHash, request: Request, id: Id): ReplayHash {
    ReplayHash(hash.count + 1, Some(request), hash.actions[request := Action(Some(id), Enqueued)])
  }

  /** The evidence must still parse, and the new entry carries its job and the replay context. */
  function ReplayStep(q: Queue, dlq: Id, request: Request, evidence: Fields, id: Id): Queue {
    if !Parses(evidence) || !Less(q.stream.last, id) then q
    else if !ReplayReply(q.dead, dlq, request, evidence, id).Created? then q
    else
      var context := Context(dlq, request);
      var p := Appended(q, id, Fields(evidence.payload, Some(context)));
      p.(dead := q.dead.(replays := q.dead.replays[dlq := ReplayedHash(HashIn(q.dead.replays, dlq), request, id)]),
         h := p.h.(created := p.h.created[context := id]))
  }

  function OriginalsOf(graves: map<Id, Grave>, dlqs: set<Id>): set<Id> {
    set d | d in dlqs && d in graves :: graves[d].original
  }

  function PurgeStep(q: Queue, dlqs: set<Id>): Queue {
    if !(dlqs <= q.dead.graves.Keys) then q
    else q.(dead := q.dead.(graves := q.dead.graves - dlqs, replays := q.dead.replays - dlqs,
                            notes := q.dead.notes - OriginalsOf(q.dead.graves, dlqs)),
            h := q.h.(purged := q.h.purged + dlqs))
  }

  /** A purge of retained entries removes exactly them, with their replay hashes and the failure notes
      of the entries they were. */
  lemma PurgeRemoves(q: Queue, dlqs: set<Id>, after: Queue)
    requires dlqs <= q.dead.graves.Keys && after == PurgeStep(q, dlqs)
    ensures after.stream == q.stream && after.tasks == q.tasks && after.rows == q.rows
    ensures forall d :: d in after.dead.graves <==> d in q.dead.graves && d !in dlqs
    ensures forall d :: d in after.dead.graves ==> after.dead.graves[d] == q.dead.graves[d]
    ensures forall d :: d in after.dead.replays <==> d in q.dead.replays && d !in dlqs
    ensures forall n :: n in after.dead.notes <==>
              n in q.dead.notes && forall d :: d in dlqs ==> q.dead.graves[d].original != n
    ensures after.h.purged == q.h.purged + dlqs
  {
  }

  // ------------------------------------------------------------------------ machine

  function TaskStep(q: Queue, e: Event, t: nat, task: Task): Queue
    requires t in q.tasks && q.tasks[t] == task
  {
    match e
    case ReadCount(_) => ReadCountStep(q, t, task)
    case Heartbeat(_) => HeartbeatStep(q, t, task)
    case Begin(_) => BeginStep(q, t, task)
    case RowFails(_) => if task.phase in {Working, Admitted, InGraph} then Moved(q, t, Raised) else q
    case Create(_) => CreateStep(q, t, task)
    case Load(_) => LoadStep(q, t, task)
    case Reset(_) => ResetStep(q, t, task)
    case Throw(_) => ThrowStep(q, t, task)
    case Commit(_, outcome) => CommitStep(q, t, task, outcome)
    case MarkFailed(_) => MarkFailedStep(q, t, task)
    case RecordFailure(_) => RecordFailureStep(q, t, task)
    case Ack(_) => AckStep(q, t, task)
    case Bury(_, grave) => BuryStep(q, t, task, grave)
    case Crash(_) => Done(q, t)
    case _ => q
  }

  predicate OfTask(e: Event) {
    !(e.Enqueue? || e.DedupeExpires? || e.ForeignEntry? || e.ReadNew? || e.Reclaim? || e.Review? || e.Replay?
        || e.Purge?)
  }

  ghost function OutsideStep(q: Queue, e: Event): Queue {
    match e
    case Enqueue(key, id) => EnqueueStep(q, key, id)
    case DedupeExpires(key) => q.(dedupe := q.dedupe - {key})
    case ForeignEntry(fields, id) =>
      if Less(q.stream.last, id) && fields.context.None? then Appended(q, id, fields) else q
    case ReadNew(t, id) => ReadNewStep(q, t, id)
    case Reclaim(t, id) => ReclaimStep(q, t, id)
    case Review(key) => if RowIn(q.rows, key) == AwaitingReview then q.(rows := q.rows[key := Complete]) else q
    case Replay(dlq, request, evidence, id) => ReplayStep(q, dlq, request, evidence, id)
    case Purge(dlqs) => PurgeStep(q, dlqs)
    case _ => q
  }

  /** One event; an event that is not possible changes nothing. */
  ghost function Next(q: Queue, e: Event): Queue {
    if !OfTask(e) then OutsideStep(q, e)
    else if e.t in q.tasks then TaskStep(q, e, e.t, q.tasks[e.t])
    else q
  }

  ghost function After(limit: int, trace: seq<Event>): Queue {
    if trace == [] then Empty(limit)
    else Next(After(limit, trace[..|trace| - 1]), trace[|trace| - 1])
  }

  /** What a worker reports of an entry that came from a replay, step by step: processing when it begins,
      retrying when a failure is recorded, and how it ended. No other step of a worker reports. */
  lemma ReportStates(q: Queue, e: Event, t: nat, task: Task, c: Context, after: Queue)
    requires t in q.tasks && q.tasks[t] == task && task.fields.context == Some(c) && after == TaskStep(q, e, t, task)
    ensures after == q || !(e.Begin? || e.RecordFailure? || e.Ack? || e.Bury?) || (e.Begin? && !Parses(task.fields)) ==>
              after.dead.replays == q.dead.replays
    ensures after != q && (e.Begin? ==> Parses(task.fields)) && (e.Begin? || e.RecordFailure? || e.Ack? || e.Bury?) ==>
              && c.dlq in after.dead.replays && c.request in after.dead.replays[c.dlq].actions
              && after.dead.replays[c.dlq].actions[c.request].state ==
                   if e.Begin? then InProcess
                   else if e.RecordFailure? then Retried
                   else if e.Ack? then Acknowledged
                   else DeadLettered
  {
  }

  // ----------------------------------------- nothing is lost, for any interleaving

  predicate StreamKept(s: Stream, appended: map<Id, Fields>) {
    && AtMost(s.cursor, s.last)
    && (forall id :: id in appended ==> AtMost(id, s.last))
    && (forall id :: id in s.live ==> id in appended && s.live[id] == appended[id])
    && (forall id :: id in s.live ==> id in s.pending || Less(s.cursor, id))
    && (forall id :: id in s.pending ==> id in s.live && AtMost(id, s.cursor))
  }

  predicate TaskKept(task: Task, cursor: Id, appended: map<Id, Fields>, settled: set<Key>) {
    && task.id in appended && task.fields == appended[task.id] && AtMost(task.id, cursor)
    && (task.phase in {Working, Admitted, InGraph, Raised, Settled} ==> Parses(task.fields))
    && (task.phase == Settled ==> KeyOf(task.fields) in settled)
  }

  predicate TasksKept(tasks: map<nat, Task>, cursor: Id, appended: map<Id, Fields>, settled: set<Key>) {
    forall t :: t in tasks ==> TaskKept(tasks[t], cursor, appended, settled)
  }

  predicate BurialsKept(deadLast: Id, everBuried: map<Id, Grave>, buried: map<Id, Id>, appended: map<Id, Fields>) {
    && (forall g :: g in everBuried ==>
          && AtMost(g, deadLast)
          && everBuried[g].original in appended
          && everBuried[g].fields == appended[everBuried[g].original])
    && (forall id :: id in buried ==> buried[id] in everBuried && everBuried[buried[id]].original == id)
  }

  /** The dead letter stream holds every grave ever written until it is purged. */
  predicate GravesKept(graves: map<Id, Grave>, everBuried: map<Id, Grave>, purged: set<Id>) {
    && (forall g :: g in graves ==> g in everBuried && g !in purged && graves[g] == everBuried[g])
    && (forall g :: g in everBuried ==> g in graves || g in purged)
    && purged <= everBuried.Keys
  }

  predicate AckedKept(fields: Fields, settled: set<Key>) {
    Parses(fields) && KeyOf(fields) in settled
  }

  /** Where an appended entry can be. */
  predicate AllAccounted(live: map<Id, Fields>, acked: set<Id>, buried: map<Id, Id>, settled: set<Key>,
                         appended: map<Id, Fields>) {
    && (forall id :: id in appended ==> id in live || id in acked || id in buried)
    && (forall id :: id in acked ==> id in appended && AckedKept(appended[id], settled))
  }

  predicate Kept(q: Queue) {
    && StreamKept(q.stream, q.h.appended)
    && TasksKept(q.tasks, q.stream.cursor, q.h.appended, q.h.settled)
    && BurialsKept(q.dead.last, q.h.everBuried, q.h.buried, q.h.appended)
    && GravesKept(q.dead.graves, q.h.everBuried, q.h.purged)
    && AllAccounted(q.stream.live, q.h.acked, q.h.buried, q.h.settled, q.h.appended)
  }

  lemma AppendKept(q: Queue, id: Id, fields: Fields)
    requires Kept(q) && Less(q.stream.last, id)
    ensures Kept(Appended(q, id, fields))
  {
  }

  lemma LeasedKept(s: Stream, appended: map<Id, Fields>, id: Id, lease: Lease)
    requires StreamKept(s, appended) && id in s.pending
    ensures StreamKept(s.(pending := s.pending[id := lease]), appended)
  {
  }

  lemma GivenKept(q: Queue, id: Id, lease: Lease)
    requires StreamKept(q.stream, q.h.appended) && NextUnread(q, id)
    ensures StreamKept(q.stream.(cursor := id, pending := q.stream.pending[id := lease]), q.h.appended)
  {
  }

  lemma TaskSet(tasks: map<nat, Task>, t: nat, task: Task, cursor: Id, appended: map<Id, Fields>, settled: set<Key>)
    requires TasksKept(tasks, cursor, appended, settled)
    ensures TaskKept(task, cursor, appended, settled) ==> TasksKept(tasks[t := task], cursor, appended, settled)
    ensures TasksKept(tasks - {t}, cursor, appended, settled)
  {
  }

  lemma CursorMoves(tasks: map<nat, Task>, cursor: Id, later: Id, appended: map<Id, Fields>, settled: set<Key>)
    requires TasksKept(tasks, cursor, appended, settled) && AtMost(cursor, later)
    ensures TasksKept(tasks, later, appended, settled)
  {
    forall t | t in tasks ensures TaskKept(tasks[t], later, appended, settled) {
      assert TaskKept(tasks[t], cursor, appended, settled);
    }
  }

  lemma MoreSettled(tasks: map<nat, Task>, cursor: Id, appended: map<Id, Fields>, acked: set<Id>,
                    live: map<Id, Fields>, buried: map<Id, Id>, settled: set<Key>, key: Key)
    requires TasksKept(tasks, cursor, appended, settled) && AllAccounted(live, acked, buried, settled, appended)
    ensures TasksKept(tasks, cursor, appended, settled + {key})
    ensures AllAccounted(live, acked, buried, settled + {key}, appended)
  {
    forall t | t in tasks ensures TaskKept(tasks[t], cursor, appended, settled + {key}) {
      assert TaskKept(tasks[t], cursor, appended, settled);
    }
    forall id | id in acked ensures id in appended && AckedKept(appended[id], settled + {key}) {
      assert AckedKept(appended[id], settled);
    }
  }

  lemma Leaves(s: Stream, appended: map<Id, Fields>, id: Id)
    requires StreamKept(s, appended)
    ensures StreamKept(Removed(s, id), appended)
  {
  }

  lemma ReadNewKept(q: Queue, t: nat, id: Id, after: Queue)
    requires Kept(q) && after == ReadNewStep(q, t, id)
    ensures Kept(after)
  {
    if after != q {
      GivenKept(q, id, Lease(t, 1));
      CursorMoves(q.tasks, q.stream.cursor, id, q.h.appended, q.h.settled);
      TaskSet(q.tasks, t, after.tasks[t], id, q.h.appended, q.h.settled);
    }
  }

  lemma ReclaimKept(q: Queue, t: nat, id: Id, after: Queue)
    requires Kept(q) && after == ReclaimStep(q, t, id)
    ensures Kept(after)
  {
    if after != q {
      LeasedKept(q.stream, q.h.appended, id, after.stream.pending[id]);
      TaskSet(q.tasks, t, after.tasks[t], q.stream.cursor, q.h.appended, q.h.settled);
    }
  }

  lemma OutsideKept(q: Queue, e: Event, after: Queue)
    requires Kept(q) && !OfTask(e) && after == OutsideStep(q, e)
    ensures Kept(after)
  {
    match e
    case Enqueue(key, id) =>
      if after != q {
        AppendKept(q, id, Fields(Some(Job(key)), None));
      }
    case ForeignEntry(fields, id) =>
      if after != q {
        AppendKept(q, id, fields);
      }
    case Replay(dlq, request, evidence, id) =>
      if after != q {
        AppendKept(q, id, Fields(evidence.payload, Some(Context(dlq, request))));
      }
    case ReadNew(t, id) => ReadNewKept(q, t, id, after);
    case Reclaim(t, id) => ReclaimKept(q, t, id, after);
    case _ =>
  }

  /** Steps that leave the streams alone and only move the task, or end it. */
  predicate Moves(q: Queue, t: nat, task: Task, after: Queue) {
    && after.stream == q.stream
    && after.dead.graves == q.dead.graves && after.dead.last == q.dead.last
    && after.h == q.h.(failures := after.h.failures)
    && (after.tasks == q.tasks - {t}
        || (t in after.tasks && after.tasks == q.tasks[t := after.tasks[t]] && MovesTo(task, after.tasks[t])))
  }

  predicate MovesTo(task: Task, later: Task) {
    && later.id == task.id && later.fields == task.fields && later.phase != Settled
    && (later.phase in {Working, Admitted, InGraph, Raised} ==> Parses(task.fields))
  }

  predicate Settles(q: Queue, t: nat, task: Task, after: Queue) {
    && Parses(task.fields)
    && after.stream == q.stream && after.dead == q.dead
    && after.h == q.h.(settled := q.h.settled + {KeyOf(task.fields)})
    && after.tasks == q.tasks[t := task.(phase := Settled)]
  }

  lemma WorkingShape(q: Queue, e: Event, t: nat, task: Task, after: Queue)
    requires t in q.tasks && q.tasks[t] == task && after == TaskStep(q, e, t, task)
    requires task.phase in {Working, Admitted, InGraph, Raised, Settled} ==> Parses(task.fields)
    requires !e.Ack? && !e.Bury? && !e.Heartbeat?
    ensures after == q || Moves(q, t, task, after) || Settles(q, t, task, after)
  {
  }

  lemma SettleKept(q: Queue, t: nat, task: Task, after: Queue)
    requires Kept(q) && t in q.tasks && q.tasks[t] == task && Settles(q, t, task, after)
    ensures Kept(after)
  {
    assert TaskKept(task, q.stream.cursor, q.h.appended, q.h.settled);
    MoreSettled(q.tasks, q.stream.cursor, q.h.appended, q.h.acked, q.stream.live, q.h.buried, q.h.settled,
        KeyOf(task.fields));
    TaskSet(q.tasks, t, after.tasks[t], q.stream.cursor, q.h.appended, after.h.settled);
  }

  lemma MoveKept(q: Queue, t: nat, task: Task, after: Queue)
    requires Kept(q) && t in q.tasks && q.tasks[t] == task && Moves(q, t, task, after)
    ensures Kept(after)
  {
    assert TaskKept(task, q.stream.cursor, q.h.appended, q.h.settled);
    TaskSet(q.tasks, t, if t in after.tasks then after.tasks[t] else task, q.stream.cursor, q.h.appended, q.h.settled);
  }

  lemma HeartbeatKept(q: Queue, t: nat, task: Task, after: Queue)
    requires Kept(q) && after == HeartbeatStep(q, t, task)
    ensures Kept(after)
  {
    if after != q {
      LeasedKept(q.stream, q.h.appended, task.id, after.stream.pending[task.id]);
    }
  }

  lemma WorkingKept(q: Queue, e: Event, t: nat, task: Task, after: Queue)
    requires Kept(q) && t in q.tasks && q.tasks[t] == task && after == TaskStep(q, e, t, task)
    requires !e.Ack? && !e.Bury? && !e.Heartbeat?
    ensures Kept(after)
  {
    assert TaskKept(task, q.stream.cursor, q.h.appended, q.h.settled);
    WorkingShape(q, e, t, task, after);
    if Settles(q, t, task, after) {
      SettleKept(q, t, task, after);
    } else if after != q {
      MoveKept(q, t, task, after);
    }
  }

  lemma AckKept(q: Queue, t: nat, task: Task, after: Queue)
    requires Kept(q) && t in q.tasks && q.tasks[t] == task && after == AckStep(q, t, task)
    ensures Kept(after)
  {
    assert TaskKept(task, q.stream.cursor, q.h.appended, q.h.settled);
    Leaves(q.stream, q.h.appended, task.id);
    TaskSet(q.tasks, t, task, q.stream.cursor, q.h.appended, q.h.settled);
  }

  lemma BuryKept(q: Queue, t: nat, task: Task, grave: Id, after: Queue)
    requires Kept(q) && t in q.tasks && q.tasks[t] == task && after == BuryStep(q, t, task, grave)
    ensures Kept(after)
  {
    if after != q {
      assert TaskKept(task, q.stream.cursor, q.h.appended, q.h.settled);
      Leaves(q.stream, q.h.appended, task.id);
      TaskSet(q.tasks, t, task, q.stream.cursor, q.h.appended, q.h.settled);
      BurialKept(q.dead.last, q.h.everBuried, q.h.buried, q.h.appended, grave, after.dead.graves[grave]);
      FreshGrave(q, grave, after.dead.graves[grave]);
    }
  }

  lemma FreshGrave(q: Queue, grave: Id, g: Grave)
    requires BurialsKept(q.dead.last, q.h.everBuried, q.h.buried, q.h.appended)
    requires GravesKept(q.dead.graves, q.h.everBuried, q.h.purged) && Less(q.dead.last, grave)
    ensures GravesKept(q.dead.graves[grave := g], q.h.everBuried[grave := g], q.h.purged)
  {
  }

  lemma BurialKept(deadLast: Id, everBuried: map<Id, Grave>, buried: map<Id, Id>, appended: map<Id, Fields>,
                   grave: Id, g: Grave)
    requires BurialsKept(deadLast, everBuried, buried, appended) && Less(deadLast, grave)
    requires g.original in appended && g.fields == appended[g.original]
    ensures BurialsKept(grave, everBuried[grave := g], buried[g.original := grave], appended)
  {
  }

  lemma TaskStepKept(q: Queue, e: Event, t: nat, task: Task, after: Queue)
    requires Kept(q) && t in q.tasks && q.tasks[t] == task && after == TaskStep(q, e, t, task)
    ensures Kept(after)
  {
    match e
    case Ack(_) => AckKept(q, t, task, after);
    case Bury(_, grave) => BuryKept(q, t, task, grave, after);
    case Heartbeat(_) => HeartbeatKept(q, t, task, after);
    case _ =>
      WorkingKept(q, e, t, task, after);
  }

  lemma {:induction false} EveryRunKept(limit: int, trace: seq<Event>) returns (q: Queue)
    ensures q == After(limit, trace)
    ensures Kept(q)
    decreases |trace|
  {
    q := After(limit, trace);
    if trace != [] {
      var before := EveryRunKept(limit, trace[..|trace| - 1]);
      var e := trace[|trace| - 1];
      if !OfTask(e) {
        OutsideKept(before, e, q);
      } else if e.t in before.tasks {
        TaskStepKept(before, e, e.t, before.tasks[e.t], q);
      }
    }
  }

  /** No loss, for any number of overlapping workers, crashes, replays and purges: an entry ever
      appended is still live with its fields, either pending or not read yet; or it was
      acknowledged after its run was seen complete or awaiting review; or a dead letter entry was
      written with its full fields, and is still there unless an operator purged it. */
  lemma NothingIsLost(limit: int, trace: seq<Event>, id: Id) returns (q: Queue)
    requires id in After(limit, trace).h.appended
    ensures q == After(limit, trace)
    ensures
      || (id in q.stream.live && q.stream.live[id] == q.h.appended[id]
            && (id in q.stream.pending || Less(q.stream.cursor, id)))
      || (id in q.h.acked && AckedKept(q.h.appended[id], q.h.settled))
      || (exists g :: g in q.h.everBuried && DeadLetterOf(q, id, g))
  {
    q := EveryRunKept(limit, trace);
    if id in q.h.buried {
      assert DeadLetterOf(q, id, q.h.buried[id]);
    }
  }

  predicate DeadLetterOf(q: Queue, id: Id, g: Id)
    requires id in q.h.appended && g in q.h.everBuried
  {
    && q.h.everBuried[g].original == id && q.h.everBuried[g].fields == q.h.appended[id]
    && (g in q.h.purged || (g in q.dead.graves && q.dead.graves[g] == q.h.everBuried[g]))
  }

  lemma FreshIds(q: Queue, id: Id, grave: Id)
    requires Kept(q)
    ensures Less(q.stream.last, id) ==>
              id !in q.h.appended && id !in q.stream.live && id !in q.h.acked && id !in q.h.buried
    ensures Less(q.dead.last, grave) ==> grave !in q.h.everBuried
  {
    if id in q.h.buried {
      assert q.h.everBuried[q.h.buried[id]].original == id;
    }
  }

  predicate Grows(h: History, later: History) {
    && h.appended.Keys <= later.appended.Keys && h.everBuried.Keys <= later.everBuried.Keys
    && (forall id :: id in h.appended ==> later.appended[id] == h.appended[id])
    && (forall g :: g in h.everBuried ==> later.everBuried[g] == h.everBuried[g])
    && h.acked <= later.acked && h.settled <= later.settled && h.purged <= later.purged
  }

  lemma AppendGrows(q: Queue, id: Id, fields: Fields, later: History)
    requires Kept(q) && Less(q.stream.last, id)
    requires later == q.h.(appended := q.h.appended[id := fields], created := later.created)
    ensures Grows(q.h, later)
  {
    FreshIds(q, id, ZERO);
  }

  lemma PurgeGrows(h: History, purged: set<Id>)
    ensures Grows(h, h.(purged := h.purged + purged)) && Grows(h, h)
  {
  }

  lemma OutsideGrows(q: Queue, e: Event, after: Queue)
    requires Kept(q) && !OfTask(e) && after == OutsideStep(q, e)
    ensures Grows(q.h, after.h)
  {
    PurgeGrows(q.h, if e.Purge? then e.dlqs else {});
    if after.h != q.h && !e.Purge? {
      AddingHistory(q, e, after);
      AppendGrows(q, e.id, after.h.appended[e.id], after.h);
    }
  }

  lemma AddingHistory(q: Queue, e: Event, after: Queue)
    requires !OfTask(e) && !e.Purge? && after == OutsideStep(q, e) && after.h != q.h
    ensures (e.Enqueue? || e.ForeignEntry? || e.Replay?) && Less(q.stream.last, e.id) && e.id in after.h.appended
    ensures after.h == q.h.(appended := q.h.appended[e.id := after.h.appended[e.id]], created := after.h.created)
  {
  }

  lemma TaskGrows(q: Queue, e: Event, t: nat, task: Task, after: Queue)
    requires Kept(q) && t in q.tasks && q.tasks[t] == task && after == TaskStep(q, e, t, task)
    ensures Grows(q.h, after.h)
  {
    if e.Bury? {
      FreshIds(q, ZERO, e.grave);
    } else if !e.Ack? && !e.Heartbeat? {
      assert TaskKept(task, q.stream.cursor, q.h.appended, q.h.settled);
      WorkingShape(q, e, t, task, after);
    }
  }

  /** The record of the past is only added to, and nothing in it is ever rewritten. */
  lemma HistoryOnlyGrows(q: Queue, e: Event, after: Queue)
    requires Kept(q) && after == Next(q, e)
    ensures Grows(q.h, after.h)
  {
    if !OfTask(e) {
      OutsideGrows(q, e, after);
    } else if e.t in q.tasks {
      TaskGrows(q, e, e.t, q.tasks[e.t], after);
    }
  }

  /** A run counts as settled from a step at which its row said so. */
  lemma SettledIsObserved(q: Queue, e: Event, after: Queue, key: Key)
    requires after == Next(q, e) && key in after.h.settled && key !in q.h.settled
    ensures key in after.rows && Short(after.rows[key])
  {
  }

  lemma {:induction false} BurialIsFinal(limit: int, trace: seq<Event>, n: nat, dlq: Id)
    returns (early: Queue, late: Queue)
    requires n <= |trace| && dlq in After(limit, trace[..n]).h.everBuried
    ensures early == After(limit, trace[..n]) && late == After(limit, trace)
    ensures Kept(late) && dlq in late.h.everBuried && late.h.everBuried[dlq] == early.h.everBuried[dlq]
    decreases |trace|
  {
    late := EveryRunKept(limit, trace);
    if n == |trace| {
      assert trace[..n] == trace;
      early := late;
    } else {
      var k := |trace| - 1;
      assert trace[..k][..n] == trace[..n];
      var before: Queue;
      early, before := BurialIsFinal(limit, trace[..k], n, dlq);
      HistoryOnlyGrows(before, trace[k], late);
    }
  }

  /** A dead letter entry read once reads the same ever after, until it is purged: the replay
      script's evidence check can only find it missing, never changed. */
  lemma EvidenceNeverChanges(limit: int, trace: seq<Event>, n: nat, dlq: Id, request: Request, id: Id)
    returns (early: Queue, late: Queue)
    requires n <= |trace| && dlq in After(limit, trace[..n]).dead.graves
    ensures early == After(limit, trace[..n]) && late == After(limit, trace)
    ensures dlq in early.dead.graves
    ensures !ReplayReply(late.dead, dlq, request, early.dead.graves[dlq].fields, id).EvidenceChanged?
    ensures ReplayReply(late.dead, dlq, request, early.dead.graves[dlq].fields, id).NotFound? <==> dlq in late.h.purged
  {
    early := GraveAt(limit, trace[..n], dlq);
    late := BurialStays(limit, trace, n, dlq);
  }

  lemma GraveAt(limit: int, trace: seq<Event>, dlq: Id) returns (q: Queue)
    requires dlq in After(limit, trace).dead.graves
    ensures q == After(limit, trace)
    ensures dlq in q.h.everBuried && q.dead.graves[dlq] == q.h.everBuried[dlq]
  {
    q := EveryRunKept(limit, trace);
  }

  lemma BurialStays(limit: int, trace: seq<Event>, n: nat, dlq: Id) returns (late: Queue)
    requires n <= |trace| && dlq in After(limit, trace[..n]).h.everBuried
    ensures late == After(limit, trace)
    ensures dlq in late.dead.graves <==> dlq !in late.h.purged
    ensures dlq in late.dead.graves ==> late.dead.graves[dlq] == After(limit, trace[..n]).h.everBuried[dlq]
  {
    var early: Queue;
    early, late := BurialIsFinal(limit, trace, n, dlq);
  }

  // ----------------------------------------------------------- a run marked failed

  /** The run is failed, its live entries are ordinary ones, and no delivery of it got past the
      first look at the row. */
  predicate OutOfGraph(q: Queue, key: Key) {
    && key in q.rows && q.rows[key] == RunFailed
    && (forall id :: id in q.stream.live && OfKey(q.stream.live[id], key) ==> q.stream.live[id].context.None?)
    && (forall t :: t in q.tasks && OfKey(q.tasks[t].fields, key) ==>
          q.tasks[t].fields.context.None? && q.tasks[t].phase !in {Admitted, InGraph, Settled})
  }

  predicate ReplaysKey(e: Event, key: Key) {
    e.Replay? && OfKey(e.evidence, key)
  }

  lemma OutsideStaysOut(q: Queue, e: Event, key: Key, after: Queue)
    requires OutOfGraph(q, key) && !OfTask(e) && !ReplaysKey(e, key) && after == OutsideStep(q, e)
    ensures OutOfGraph(after, key) && after.h.acked == q.h.acked
  {
  }

  lemma OwnStepStaysOut(q: Queue, e: Event, t: nat, task: Task, key: Key, after: Queue)
    requires OutOfGraph(q, key) && t in q.tasks && q.tasks[t] == task && OfKey(task.fields, key)
    requires OfTask(e) && after == TaskStep(q, e, t, task)
    ensures OutOfGraph(after, key) && after.h.acked == q.h.acked
  {
    if t in after.tasks {
      assert after.tasks[t].fields == task.fields && after.tasks[t].phase !in {Admitted, InGraph, Settled};
    }
    assert after.rows == q.rows;
  }

  /** What a task's own step leaves alone. */
  predicate OwnStep(q: Queue, t: nat, task: Task, after: Queue) {
    && after.stream.live.Keys <= q.stream.live.Keys
    && (forall id :: id in after.stream.live ==> after.stream.live[id] == q.stream.live[id])
    && (forall u :: u in after.tasks && u != t ==> u in q.tasks && after.tasks[u] == q.tasks[u])
    && (t in after.tasks ==> after.tasks[t].fields == task.fields)
    && (forall key :: key in q.rows && !OfKey(task.fields, key) ==> key in after.rows && after.rows[key] == q.rows[key])
    && (after.h.acked == q.h.acked || after.h.acked == q.h.acked + {task.id})
  }

  lemma EndingShape(q: Queue, e: Event, t: nat, task: Task, after: Queue)
    requires t in q.tasks && q.tasks[t] == task && after == TaskStep(q, e, t, task)
    requires e.RecordFailure? || e.Ack? || e.Bury? || e.Crash? || e.Heartbeat?
    ensures OwnStep(q, t, task, after)
  {
  }

  lemma OtherStepShape(q: Queue, e: Event, t: nat, task: Task, after: Queue)
    requires t in q.tasks && q.tasks[t] == task && after == TaskStep(q, e, t, task)
    ensures OwnStep(q, t, task, after)
  {
    if e.RecordFailure? || e.Ack? || e.Bury? || e.Crash? || e.Heartbeat? {
      EndingShape(q, e, t, task, after);
    }
  }

  lemma OtherStepStaysOut(q: Queue, e: Event, t: nat, task: Task, key: Key, after: Queue)
    requires OutOfGraph(q, key) && t in q.tasks && q.tasks[t] == task && !OfKey(task.fields, key)
    requires OfTask(e) && after == TaskStep(q, e, t, task)
    ensures OutOfGraph(after, key)
    ensures after.h.acked == q.h.acked || after.h.acked == q.h.acked + {task.id}
  {
    OtherStepShape(q, e, t, task, after);
  }

  predicate NoneAcked(q: Queue, key: Key, acked: set<Id>) {
    forall id :: id in acked && id in q.h.appended && OfKey(q.h.appended[id], key) ==> id in q.h.acked
  }

  lemma TaskStaysOut(q: Queue, e: Event, t: nat, task: Task, key: Key, after: Queue)
    requires OutOfGraph(q, key) && t in q.tasks && q.tasks[t] == task
    requires task.id in q.h.appended && q.h.appended[task.id] == task.fields
    requires OfTask(e) && after == TaskStep(q, e, t, task)
    ensures OutOfGraph(after, key) && NoneAcked(q, key, after.h.acked)
  {
    if OfKey(task.fields, key) {
      OwnStepStaysOut(q, e, t, task, key, after);
    } else {
      OtherStepStaysOut(q, e, t, task, key, after);
    }
  }

  /** An entry of the key is not acknowledged by a step from out of the graph. */
  lemma StepStaysOut(q: Queue, e: Event, key: Key, after: Queue)
    requires Kept(q) && OutOfGraph(q, key) && !ReplaysKey(e, key) && after == Next(q, e)
    ensures OutOfGraph(after, key) && NoneAcked(q, key, after.h.acked)
  {
    if !OfTask(e) {
      OutsideStaysOut(q, e, key, after);
    } else if e.t in q.tasks {
      assert TaskKept(q.tasks[e.t], q.stream.cursor, q.h.appended, q.h.settled);
      TaskStaysOut(q, e, e.t, q.tasks[e.t], key, after);
    }
  }

  lemma AckedBefore(q: Queue, e: Event, key: Key, after: Queue)
    requires Kept(q) && after == Next(q, e) && Grows(q.h, after.h)
    requires NoneAcked(q, key, after.h.acked)
    ensures forall id :: id in after.h.acked && id in after.h.appended && OfKey(after.h.appended[id], key) ==>
              id in q.h.acked
  {
    AckedAppended(q, e, after);
  }

  lemma AckedAppended(q: Queue, e: Event, after: Queue)
    requires Kept(q) && after == Next(q, e)
    ensures after.h.acked <= q.h.appended.Keys
  {
    if OfTask(e) && e.t in q.tasks {
      assert TaskKept(q.tasks[e.t], q.stream.cursor, q.h.appended, q.h.settled);
      OtherStepShape(q, e, e.t, q.tasks[e.t], after);
    }
  }

  lemma {:induction false} LiveIsNotAcked(limit: int, trace: seq<Event>) returns (q: Queue)
    ensures q == After(limit, trace) && Kept(q) && q.stream.live.Keys !! q.h.acked
    decreases |trace|
  {
    q := EveryRunKept(limit, trace);
    if trace != [] {
      var before := LiveIsNotAcked(limit, trace[..|trace| - 1]);
      EndsOnce(before, trace[|trace| - 1], q);
    }
  }

  lemma EndsOnce(q: Queue, e: Event, after: Queue)
    requires Kept(q) && q.stream.live.Keys !! q.h.acked && after == Next(q, e)
    ensures after.stream.live.Keys !! after.h.acked
  {
    if !OfTask(e) {
      OutsideEndsOnce(q, e, after);
    } else if e.t in q.tasks {
      TaskEndsOnce(q, e, e.t, q.tasks[e.t], after);
    }
  }

  lemma OutsideLive(q: Queue, e: Event, after: Queue)
    requires !OfTask(e) && after == OutsideStep(q, e)
    ensures after.h.acked == q.h.acked
    ensures after.stream.live == q.stream.live
         || ((e.Enqueue? || e.ForeignEntry? || e.Replay?) && Less(q.stream.last, e.id)
             && after.stream.live.Keys == q.stream.live.Keys + {e.id})
  {
  }

  lemma OutsideEndsOnce(q: Queue, e: Event, after: Queue)
    requires Kept(q) && q.stream.live.Keys !! q.h.acked && !OfTask(e) && after == OutsideStep(q, e)
    ensures after.stream.live.Keys !! after.h.acked
  {
    OutsideLive(q, e, after);
    if after.stream.live != q.stream.live {
      FreshIds(q, e.id, ZERO);
    }
  }

  lemma TaskEndsOnce(q: Queue, e: Event, t: nat, task: Task, after: Queue)
    requires q.stream.live.Keys !! q.h.acked && t in q.tasks && q.tasks[t] == task && after == TaskStep(q, e, t, task)
    ensures after.stream.live.Keys !! after.h.acked
  {
    if !e.Ack? {
      OtherStepShape(q, e, t, task, after);
      assert after.h.acked == q.h.acked;
    }
  }

  /** An ordinary run marked failed reaches the dead letters without the graph: from any reachable
      state with the run failed, its live entries ordinary and no delivery of it past the first
      look, and without a replay of it, over every further interleaving: the row stays failed, no
      delivery of it gets into the graph, none of its entries is acknowledged, and each entry live
      before is still live or was dead-lettered. */
  lemma {:induction false} FailedRunStaysOut(limit: int, trace: seq<Event>, n: nat, early: Queue, key: Key)
    returns (late: Queue)
    requires n <= |trace| && early == After(limit, trace[..n]) && OutOfGraph(early, key)
    requires forall i :: n <= i < |trace| ==> !ReplaysKey(trace[i], key)
    ensures late == After(limit, trace) && Kept(late) && OutOfGraph(late, key)
    ensures Grows(early.h, late.h)
    ensures forall id :: id in late.h.acked && id in late.h.appended && OfKey(late.h.appended[id], key) ==>
              id in early.h.acked
    ensures forall id :: id in early.stream.live && OfKey(early.stream.live[id], key) ==>
              id in late.stream.live || id in late.h.buried
    decreases |trace|
  {
    late := EveryRunKept(limit, trace);
    if n == |trace| {
      assert trace[..n] == trace;
    } else {
      var k := |trace| - 1;
      assert trace[..k][..n] == trace[..n];
      var before := FailedRunStaysOut(limit, trace[..k], n, early, key);
      StaysOutAt(limit, trace, key, before, late);
    }
    LiveOrBuried(limit, trace[..n], early, key, late);
  }

  lemma StaysOutAt(limit: int, trace: seq<Event>, key: Key, before: Queue, late: Queue)
    requires trace != [] && before == After(limit, trace[..|trace| - 1]) && late == After(limit, trace)
    requires Kept(before) && OutOfGraph(before, key) && !ReplaysKey(trace[|trace| - 1], key)
    ensures OutOfGraph(late, key) && Grows(before.h, late.h)
    ensures forall id :: id in late.h.acked && id in late.h.appended && OfKey(late.h.appended[id], key) ==>
              id in before.h.acked
  {
    var e := trace[|trace| - 1];
    StepStaysOut(before, e, key, late);
    HistoryOnlyGrows(before, e, late);
    AckedBefore(before, e, key, late);
  }

  lemma LiveOrBuried(limit: int, trace: seq<Event>, early: Queue, key: Key, late: Queue)
    requires early == After(limit, trace) && Kept(late) && Grows(early.h, late.h)
    requires forall id :: id in late.h.acked && id in late.h.appended && OfKey(late.h.appended[id], key) ==>
              id in early.h.acked
    ensures forall id :: id in early.stream.live && OfKey(early.stream.live[id], key) ==>
              id in late.stream.live || id in late.h.buried
  {
    var same := LiveIsNotAcked(limit, trace);
    forall id | id in early.stream.live && OfKey(early.stream.live[id], key)
      ensures id in late.stream.live || id in late.h.buried
    {
      assert id in late.h.appended;
    }
  }
}
