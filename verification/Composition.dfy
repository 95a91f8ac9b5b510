/** The two protocols as one: the queue with, for every key, the run behind it. A joint step is a
    step of the queue, of one run, or of both at once, so a joint run projects to a run of each; and
    what the queue believes about rows and deliveries is what the runs' own stores say. */
module Composition {
  import opened Options
  import opened StreamIds
  import opened WorkflowGraph
  import R = RunProtocol
  import opened Delivery

  function PhaseOf(a: R.Attempt): Phase {
    match a
    case Loading(_) => Working
    case Admitted(_) => Delivery.Admitted
    case Failing => Raised
    case _ => InGraph
  }

  predicate AtWork(phase: Phase) {
    phase in {Working, Delivery.Admitted, InGraph, Raised}
  }

  function CommitOutcome(cp: Checkpoint): Processing {
    if cp.next == EndNode then cp.values.processing else AwaitingReview
  }

  /** The queue event that a run event of a delivery is; inner graph steps are none. */
  function QueueEvent(e: R.Event, a: R.Attempt): Option<Event> {
    match e
    case RowFails(t) => Some(Event.RowFails(t))
    case Load(t) => Some(Event.Load(t))
    case Reset(t) => Some(Event.Reset(t))
    case PersistRetrying(t) => Some(Throw(t))
    case CommitRow(t) =>
      if a.Returned? then Some(Commit(t, CommitOutcome(a.local))) else None
    case MarkFailed(t) => Some(Event.MarkFailed(t))
    case GiveUp(t) => Some(RecordFailure(t))
    case Crash(t) => Some(Event.Crash(t))
    case _ => None
  }

  /** Steps inside a run that a delivery of the queue drives on its own. */
  predicate Inside(e: R.Event) {
    !R.IsReview(e) && !e.Spawn? && !e.MarkFailed? && !e.GiveUp? && !e.Crash?
  }

  // ----------------------------------------------------------- one delivery, one run

  /** The queue's delivery works on the run as the run has it. */
  predicate TaskMatches(task: Task, a: R.Attempt) {
    && Parses(task.fields) && task.phase == PhaseOf(a)
    && (a.Loading? ==> (a.replay <==> task.fields.context.Some?))
    && (a.Admitted? ==> (a.replay <==> task.fields.context.Some?))
  }

  /** Where a step of delivery `t` leads: it goes on matching the run, or both are through with it. */
  predicate Followed(t: nat, key: Key, q: Queue, later: Queue, after: R.Run)
    requires t in q.tasks
  {
    && RowIn(later.rows, key) == after.row.processing
    && (key in q.rows ==> key in later.rows)
    && (if t in after.tasks then t in later.tasks && later.tasks[t].fields == q.tasks[t].fields
                                 && TaskMatches(later.tasks[t], after.tasks[t])
        else t in later.tasks ==> later.tasks[t].fields == q.tasks[t].fields && !AtWork(later.tasks[t].phase))
  }

  predicate Ready(q: Queue, t: nat, key: Key, s: R.Run) {
    && t in q.tasks && t in s.tasks && TaskMatches(q.tasks[t], s.tasks[t]) && KeyOf(q.tasks[t].fields) == key
    && RowIn(q.rows, key) == s.row.processing
  }

  lemma LoadFollowed(s: R.Run, t: nat, key: Key, q: Queue, after: R.Run, later: Queue)
    requires Ready(q, t, key, s) && key in q.rows
    requires after == R.WorkerStep(s, R.Load(t), t, s.tasks[t]) && after != s
    requires later == LoadStep(q, t, q.tasks[t])
    ensures Followed(t, key, q, later, after)
  {
  }

  lemma ResetFollowed(s: R.Run, t: nat, key: Key, q: Queue, after: R.Run, later: Queue)
    requires Ready(q, t, key, s)
    requires after == R.WorkerStep(s, R.Reset(t), t, s.tasks[t]) && after != s
    requires later == ResetStep(q, t, q.tasks[t])
    ensures Followed(t, key, q, later, after)
  {
  }

  lemma CommitFollowed(s: R.Run, t: nat, key: Key, q: Queue, after: R.Run, later: Queue, outcome: Processing)
    requires Ready(q, t, key, s) && s.tasks[t].Returned? && Short(outcome)
    requires outcome == CommitOutcome(s.tasks[t].local)
    requires after == R.WorkerStep(s, R.CommitRow(t), t, s.tasks[t]) && after != s
    requires later == CommitStep(q, t, q.tasks[t], outcome)
    ensures Followed(t, key, q, later, after)
  {
  }

  lemma InnerFollowed(s: R.Run, e: R.Event, t: nat, key: Key, q: Queue, after: R.Run)
    requires Ready(q, t, key, s) && (e.Open? || e.WriteEffect? || e.WriteCheckpoint? || e.Throw?) && e.t == t
    requires after == R.WorkerStep(s, e, t, s.tasks[t]) && after != s
    ensures Followed(t, key, q, q, after)
  {
  }

  lemma RaiseFollowed(s: R.Run, e: R.Event, t: nat, key: Key, q: Queue, after: R.Run, later: Queue)
    requires Ready(q, t, key, s) && (e.RowFails? || e.PersistRetrying?) && e.t == t
    requires after == R.WorkerStep(s, e, t, s.tasks[t]) && after != s
    requires later == TaskStep(q, QueueEvent(e, s.tasks[t]).value, t, q.tasks[t])
    ensures Followed(t, key, q, later, after)
  {
  }

  lemma CommitStepFollowed(s: R.Run, t: nat, key: Key, q: Queue, after: R.Run, later: Queue)
    requires R.AllSound(s) && Ready(q, t, key, s) && s.tasks[t].Returned?
    requires after == R.WorkerStep(s, R.CommitRow(t), t, s.tasks[t]) && after != s
    requires later == CommitStep(q, t, q.tasks[t], CommitOutcome(s.tasks[t].local))
    ensures Followed(t, key, q, later, after)
  {
    assert R.AttemptSound(s.answered, s.found, s.tasks[t]);
    if s.tasks[t].local.next == EndNode {
      NormalEnd(OwnMatch(s.tasks[t].local), s.tasks[t].local);
    }
    CommitFollowed(s, t, key, q, after, later, CommitOutcome(s.tasks[t].local));
  }

  /** A step inside the run that the queue sees. */
  lemma SeenFollowed(s: R.Run, e: R.Event, t: nat, key: Key, q: Queue, after: R.Run, d: Event, later: Queue)
    requires R.AllSound(s) && Inside(e) && e.t == t && Ready(q, t, key, s) && (e.Load? ==> key in q.rows)
    requires after == R.WorkerStep(s, e, t, s.tasks[t]) && after != s
    requires QueueEvent(e, s.tasks[t]) == Some(d) && later == TaskStep(q, d, t, q.tasks[t])
    ensures Followed(t, key, q, later, after)
  {
    if e.Load? {
      LoadFollowed(s, t, key, q, after, later);
    } else if e.Reset? {
      ResetFollowed(s, t, key, q, after, later);
    } else if e.CommitRow? {
      CommitStepFollowed(s, t, key, q, after, later);
    } else {
      RaiseFollowed(s, e, t, key, q, after, later);
    }
  }

  /** A step inside the run that it does not see. */
  lemma UnseenFollowed(s: R.Run, e: R.Event, t: nat, key: Key, q: Queue, after: R.Run)
    requires Inside(e) && e.t == t && Ready(q, t, key, s) && QueueEvent(e, s.tasks[t]).None?
    requires after == R.WorkerStep(s, e, t, s.tasks[t]) && after != s
    ensures Followed(t, key, q, q, after)
  {
    if e.Open? || e.WriteEffect? || e.WriteCheckpoint? || e.Throw? {
      InnerFollowed(s, e, t, key, q, after);
    }
  }

  // ----------------------------------------------------------------- the joint protocol

  datatype Joint = Joint(
    q: Queue,
    runs: map<Key, R.Run>,
    events: seq<Event>,                     // the queue's steps so far
    histories: map<Key, seq<R.Event>>)      // each run's steps so far

  function RunIn(runs: map<Key, R.Run>, key: Key): R.Run {
    if key in runs then runs[key] else R.START
  }

  function HistoryIn(histories: map<Key, seq<R.Event>>, key: Key): seq<R.Event> {
    if key in histories then histories[key] else []
  }

  datatype Step =
    | OnQueue(d: Event)
    | Begin(t: nat)
    | OnRun(e: R.Event)
    | Fail(t: nat)
    | GiveUp(t: nat)
    | Die(t: nat)
    | OnReview(key: Key, e: R.Event)

  /** Queue steps that touch no run: producers, reads, leases, ends, operators, and the creation of a
      row that reads as running anyway. */
  predicate QueueOnly(e: Event) {
    || e.Enqueue? || e.DedupeExpires? || e.ForeignEntry? || e.ReadNew? || e.Reclaim? || e.ReadCount?
    || e.Heartbeat? || e.Create? || e.Ack? || e.Bury? || e.Replay? || e.Purge?
  }

  ghost function WithQueue(j: Joint, e: Event): Joint {
    j.(q := Next(j.q, e), events := j.events + [e])
  }

  ghost function WithRun(j: Joint, key: Key, e: R.Event): Joint {
    j.(runs := j.runs[key := R.Next(RunIn(j.runs, key), e)],
       histories := j.histories[key := HistoryIn(j.histories, key) + [e]])
  }

  ghost function Both(j: Joint, d: Event, key: Key, e: R.Event): Joint {
    WithRun(WithQueue(j, d), key, e)
  }

  ghost function BeginBoth(j: Joint, t: nat): Joint {
    if t !in j.q.tasks || j.q.tasks[t].phase != Received then j
    else if !Parses(j.q.tasks[t].fields) then WithQueue(j, Event.Begin(t))
    else Both(j, Event.Begin(t), KeyOf(j.q.tasks[t].fields), R.Spawn(t, j.q.tasks[t].fields.context.Some?))
  }

  /** The run's step, when it is possible, and the queue's with it. */
  ghost function RunBoth(j: Joint, e: R.Event): Joint
    requires Inside(e)
  {
    if e.t !in j.q.tasks || !AtWork(j.q.tasks[e.t].phase) || !Parses(j.q.tasks[e.t].fields) then j
    else
      var key := KeyOf(j.q.tasks[e.t].fields);
      var s := RunIn(j.runs, key);
      if e.t !in s.tasks || R.Next(s, e) == s || (e.Load? && key !in j.q.rows) then j
      else
        match QueueEvent(e, s.tasks[e.t])
        case Some(d) => Both(j, d, key, e)
        case None => WithRun(j, key, e)
  }

  /** The last attempt's handler: it fails the row only when there is one, and waits for its lock. */
  ghost function FailBoth(j: Joint, t: nat): Joint {
    if t !in j.q.tasks || j.q.tasks[t].phase != Raised || !Parses(j.q.tasks[t].fields)
        || j.q.tasks[t].attempt < j.q.limit then j
    else
      var key := KeyOf(j.q.tasks[t].fields);
      if key !in j.q.rows then Both(j, Event.MarkFailed(t), key, R.GiveUp(t))
      else if !RunIn(j.runs, key).reviewer.Idle? then j
      else Both(j, Event.MarkFailed(t), key, R.MarkFailed(t))
  }

  ghost function GiveUpBoth(j: Joint, t: nat): Joint {
    if t !in j.q.tasks || j.q.tasks[t].phase != Raised || !Parses(j.q.tasks[t].fields)
        || j.q.tasks[t].attempt >= j.q.limit then j
    else Both(j, RecordFailure(t), KeyOf(j.q.tasks[t].fields), R.GiveUp(t))
  }

  ghost function DieBoth(j: Joint, t: nat): Joint {
    if t !in j.q.tasks then j
    else if AtWork(j.q.tasks[t].phase) && Parses(j.q.tasks[t].fields)
    then Both(j, Event.Crash(t), KeyOf(j.q.tasks[t].fields), R.Crash(t))
    else WithQueue(j, Event.Crash(t))
  }

  ghost function ReviewBoth(j: Joint, key: Key, e: R.Event): Joint {
    if e.ReviewCommit? && RunIn(j.runs, key).reviewer.Deciding? then Both(j, Review(key), key, e)
        else WithRun(j, key, e)
  }

  ghost function JointNext(j: Joint, step: Step): Joint {
    match step
    case OnQueue(d) => if QueueOnly(d) then WithQueue(j, d) else j
    case Begin(t) => BeginBoth(j, t)
    case OnRun(e) => if Inside(e) then RunBoth(j, e) else j
    case Fail(t) => FailBoth(j, t)
    case GiveUp(t) => GiveUpBoth(j, t)
    case Die(t) => DieBoth(j, t)
    case OnReview(key, e) => if R.IsReview(e) then ReviewBoth(j, key, e) else j
  }

  ghost function JointAfter(limit: int, steps: seq<Step>): Joint {
    if steps == [] then Joint(Empty(limit), map[], [], map[])
    else JointNext(JointAfter(limit, steps[..|steps| - 1]), steps[|steps| - 1])
  }

  // -------------------------------------------------------------------- what couples them

  predicate TaskCoupled(task: Task, t: nat, runs: map<Key, R.Run>) {
    AtWork(task.phase) ==>
      && Parses(task.fields) && t in RunIn(runs, KeyOf(task.fields)).tasks
      && TaskMatches(task, RunIn(runs, KeyOf(task.fields)).tasks[t])
  }

  predicate AttemptCoupled(q: Queue, key: Key, t: nat) {
    t in q.tasks && AtWork(q.tasks[t].phase) && OfKey(q.tasks[t].fields, key)
  }

  /** The row the queue sees is the run's row; every delivery at work is the run's, in the matching
      phase; and no run has any other. */
  ghost predicate Coupled(q: Queue, runs: map<Key, R.Run>) {
    && (forall key :: RowIn(q.rows, key) == RunIn(runs, key).row.processing)
    && (forall t :: t in q.tasks ==> TaskCoupled(q.tasks[t], t, runs))
    && (forall key, t :: t in RunIn(runs, key).tasks ==> AttemptCoupled(q, key, t))
  }

  /** Both sides are runs of their own protocols. */
  ghost predicate Projected(limit: int, j: Joint) {
    && j.q == After(limit, j.events)
    && (forall key :: RunIn(j.runs, key) == R.After(R.START, HistoryIn(j.histories, key)))
  }

  // -------------------------------------------------------------------- queue-only steps

  predicate SameTask(q: Queue, later: Queue, t: nat) {
    && (t in later.tasks && AtWork(later.tasks[t].phase) ==> t in q.tasks && q.tasks[t] == later.tasks[t])
    && (t in q.tasks && AtWork(q.tasks[t].phase) ==> t in later.tasks && later.tasks[t] == q.tasks[t])
  }

  lemma OutsideSame(q: Queue, e: Event, later: Queue, t: nat)
    requires QueueOnly(e) && !OfTask(e) && later == OutsideStep(q, e)
    ensures SameTask(q, later, t) && later.rows == q.rows
  {
  }

  lemma TaskSame(q: Queue, e: Event, u: nat, task: Task, later: Queue, t: nat, key: Key)
    requires QueueOnly(e) && OfTask(e) && u in q.tasks && q.tasks[u] == task && later == TaskStep(q, e, u, task)
    ensures SameTask(q, later, t) && RowIn(later.rows, key) == RowIn(q.rows, key)
  {
  }

  lemma QueueOnlyCoupled(q: Queue, runs: map<Key, R.Run>, e: Event, later: Queue)
    requires Coupled(q, runs) && QueueOnly(e) && later == Next(q, e)
    ensures Coupled(later, runs)
  {
    forall key ensures RowIn(later.rows, key) == RunIn(runs, key).row.processing {
      if !OfTask(e) {
        OutsideSame(q, e, later, 0);
      } else if e.t in q.tasks {
        TaskSame(q, e, e.t, q.tasks[e.t], later, 0, key);
      }
    }
    forall t ensures SameTask(q, later, t) {
      if !OfTask(e) {
        OutsideSame(q, e, later, t);
      } else if e.t in q.tasks {
        TaskSame(q, e, e.t, q.tasks[e.t], later, t, "");
      }
    }
    SameCoupled(q, runs, later);
  }

  lemma SameCoupled(q: Queue, runs: map<Key, R.Run>, later: Queue)
    requires Coupled(q, runs) && (forall t :: SameTask(q, later, t))
    requires forall key :: RowIn(later.rows, key) == RunIn(runs, key).row.processing
    ensures Coupled(later, runs)
  {
    forall t | t in later.tasks ensures TaskCoupled(later.tasks[t], t, runs) {
      assert SameTask(q, later, t);
      assert t in q.tasks ==> TaskCoupled(q.tasks[t], t, runs);
    }
    forall key, t | t in RunIn(runs, key).tasks ensures AttemptCoupled(later, key, t) {
      assert SameTask(q, later, t) && AttemptCoupled(q, key, t);
    }
  }

  // ------------------------------------------------------------- one delivery in step

  /** Only delivery `t`, and only the row of its key, differ. */
  ghost predicate OnlyTask(q: Queue, later: Queue, t: nat, key: Key) {
    && (forall u :: u != t ==> (u in later.tasks <==> u in q.tasks))
    && (forall u :: u != t && u in q.tasks ==> u in later.tasks && later.tasks[u] == q.tasks[u])
    && (forall k :: k != key ==> RowIn(later.rows, k) == RowIn(q.rows, k))
  }

  ghost predicate OnlyAttempt(s: R.Run, after: R.Run, t: nat) {
    && (forall u :: u != t ==> (u in after.tasks <==> u in s.tasks))
    && (forall u :: u != t && u in s.tasks ==> u in after.tasks && after.tasks[u] == s.tasks[u])
  }

  lemma TaskStepOnly(q: Queue, e: Event, t: nat, task: Task, later: Queue, key: Key)
    requires t in q.tasks && q.tasks[t] == task && later == TaskStep(q, e, t, task)
              && (Parses(task.fields) ==> KeyOf(task.fields) == key)
    requires task.phase in {Working, Delivery.Admitted, InGraph, Raised, Delivery.Settled} ==> Parses(task.fields)
    ensures OnlyTask(q, later, t, key)
  {
  }

  lemma RunStepOnly(s: R.Run, e: R.Event, after: R.Run)
    requires !R.IsReview(e) && after == R.Next(s, e)
    ensures OnlyAttempt(s, after, e.t)
  {
  }

  /** The two ends of one delivery still match, or are both through. */
  predicate EndsMatch(later: Queue, after: R.Run, t: nat, key: Key) {
    && RowIn(later.rows, key) == after.row.processing
    && (t in later.tasks && AtWork(later.tasks[t].phase) ==>
          OfKey(later.tasks[t].fields, key) && t in after.tasks && TaskMatches(later.tasks[t], after.tasks[t]))
    && (t in after.tasks ==> AttemptCoupled(later, key, t))
  }

  lemma PairCoupled(q: Queue, runs: map<Key, R.Run>, t: nat, key: Key, later: Queue, after: R.Run)
    requires Coupled(q, runs) && OnlyTask(q, later, t, key) && OnlyAttempt(RunIn(runs, key), after, t)
    requires EndsMatch(later, after, t, key)
    requires forall k :: k != key ==> t !in RunIn(runs, k).tasks
    ensures Coupled(later, runs[key := after])
  {
    var now := runs[key := after];
    forall k ensures RowIn(later.rows, k) == RunIn(now, k).row.processing {
      assert RowIn(q.rows, k) == RunIn(runs, k).row.processing;
    }
    forall u | u in later.tasks ensures TaskCoupled(later.tasks[u], u, now) {
      if u != t {
        assert TaskCoupled(q.tasks[u], u, runs);
      }
    }
    forall k, u | u in RunIn(now, k).tasks ensures AttemptCoupled(later, k, u) {
      if u != t {
        assert u in RunIn(runs, k).tasks;
        assert AttemptCoupled(q, k, u);
      }
    }
  }

  /** A delivery at work belongs to the run of its own key and to no other. */
  lemma OwnRun(q: Queue, runs: map<Key, R.Run>, t: nat)
    requires Coupled(q, runs) && t in q.tasks
    ensures AtWork(q.tasks[t].phase) ==>
              Parses(q.tasks[t].fields) && Ready(q, t, KeyOf(q.tasks[t].fields), RunIn(runs, KeyOf(q.tasks[t].fields)))
    ensures forall k :: t in RunIn(runs, k).tasks ==> AtWork(q.tasks[t].phase) && OfKey(q.tasks[t].fields, k)
  {
    assert TaskCoupled(q.tasks[t], t, runs);
    forall k | t in RunIn(runs, k).tasks ensures AtWork(q.tasks[t].phase) && OfKey(q.tasks[t].fields, k) {
      assert AttemptCoupled(q, k, t);
    }
  }

  // ------------------------------------------------------------------------- each step

  lemma SpawnCoupled(q: Queue, runs: map<Key, R.Run>, t: nat, task: Task, key: Key, later: Queue, after: R.Run)
    requires Coupled(q, runs) && t in q.tasks && q.tasks[t] == task && task.phase == Received && OfKey(task.fields, key)
    requires later == BeginStep(q, t, task)
    requires after == R.Next(RunIn(runs, key), R.Spawn(t, task.fields.context.Some?))
    ensures Coupled(later, runs[key := after])
  {
    OwnRun(q, runs, t);
    TaskStepOnly(q, Event.Begin(t), t, task, later, key);
    PairCoupled(q, runs, t, key, later, after);
  }

  lemma BeginCoupled(j: Joint, t: nat)
    requires Coupled(j.q, j.runs)
    ensures Coupled(BeginBoth(j, t).q, BeginBoth(j, t).runs)
  {
    if t in j.q.tasks && j.q.tasks[t].phase == Received {
      var task := j.q.tasks[t];
      if Parses(task.fields) {
        var key := KeyOf(task.fields);
        SpawnCoupled(j.q, j.runs, t, task, key, BeginStep(j.q, t, task),
                     R.Next(RunIn(j.runs, key), R.Spawn(t, task.fields.context.Some?)));
      } else {
        IdleCoupled(j.q, j.runs, t, Moved(j.q, t, Doomed));
      }
    }
  }

  lemma FollowedCoupled(q: Queue, runs: map<Key, R.Run>, t: nat, key: Key, later: Queue, after: R.Run)
    requires Coupled(q, runs) && t in q.tasks && OfKey(q.tasks[t].fields, key)
    requires OnlyTask(q, later, t, key) && OnlyAttempt(RunIn(runs, key), after, t) && Followed(t, key, q, later, after)
    ensures Coupled(later, runs[key := after])
  {
    OwnRun(q, runs, t);
    PairCoupled(q, runs, t, key, later, after);
  }

  lemma SeenCoupled(q: Queue, runs: map<Key, R.Run>, e: R.Event, t: nat, key: Key, d: Event, after: R.Run, later: Queue)
    requires Coupled(q, runs) && R.AllSound(RunIn(runs, key)) && Inside(e) && e.t == t
    requires Ready(q, t, key, RunIn(runs, key)) && (e.Load? ==> key in q.rows)
    requires after == R.WorkerStep(RunIn(runs, key), e, t, RunIn(runs, key).tasks[t]) && after != RunIn(runs, key)
    requires QueueEvent(e, RunIn(runs, key).tasks[t]) == Some(d) && later == TaskStep(q, d, t, q.tasks[t])
    ensures Coupled(later, runs[key := after])
  {
    SeenFollowed(RunIn(runs, key), e, t, key, q, after, d, later);
    RunStepOnly(RunIn(runs, key), e, after);
    TaskStepOnly(q, d, t, q.tasks[t], later, key);
    FollowedCoupled(q, runs, t, key, later, after);
  }

  lemma UnseenCoupled(q: Queue, runs: map<Key, R.Run>, e: R.Event, t: nat, key: Key, after: R.Run)
    requires Coupled(q, runs) && Inside(e) && e.t == t
    requires Ready(q, t, key, RunIn(runs, key)) && QueueEvent(e, RunIn(runs, key).tasks[t]).None?
    requires after == R.WorkerStep(RunIn(runs, key), e, t, RunIn(runs, key).tasks[t]) && after != RunIn(runs, key)
    ensures Coupled(q, runs[key := after])
  {
    UnseenFollowed(RunIn(runs, key), e, t, key, q, after);
    RunStepOnly(RunIn(runs, key), e, after);
    FollowedCoupled(q, runs, t, key, q, after);
  }

  lemma EventTask(e: R.Event, a: R.Attempt)
    requires Inside(e) && QueueEvent(e, a).Some?
    ensures OfTask(QueueEvent(e, a).value) && QueueEvent(e, a).value.t == e.t
  {
  }

  lemma RunCoupled(j: Joint, e: R.Event)
    requires Coupled(j.q, j.runs) && Inside(e) && (forall key :: R.AllSound(RunIn(j.runs, key)))
    ensures Coupled(RunBoth(j, e).q, RunBoth(j, e).runs)
  {
    if RunBoth(j, e) != j {
      var t := e.t;
      var key := KeyOf(j.q.tasks[t].fields);
      var s := RunIn(j.runs, key);
      OwnRun(j.q, j.runs, t);
      match QueueEvent(e, s.tasks[t])
      case Some(d) =>
        EventTask(e, s.tasks[t]);
        SeenCoupled(j.q, j.runs, e, t, key, d, R.WorkerStep(s, e, t, s.tasks[t]), TaskStep(j.q, d, t, j.q.tasks[t]));
      case None =>
        UnseenCoupled(j.q, j.runs, e, t, key, R.WorkerStep(s, e, t, s.tasks[t]));
    }
  }

  /** A delivery ends on both sides at once, and the row as the run has it. */
  lemma EndCoupled(q: Queue, runs: map<Key, R.Run>, d: Event, t: nat, key: Key, e: R.Event, later: Queue, after: R.Run)
    requires Coupled(q, runs) && t in q.tasks && OfKey(q.tasks[t].fields, key) && AtWork(q.tasks[t].phase)
    requires OfTask(d) && d.t == t && (e.MarkFailed? || e.GiveUp? || e.Crash?) && e.t == t
    requires later == TaskStep(q, d, t, q.tasks[t]) && after == R.Next(RunIn(runs, key), e)
    requires t !in after.tasks && RowIn(later.rows, key) == after.row.processing
    requires t in later.tasks ==> !AtWork(later.tasks[t].phase)
    ensures Coupled(later, runs[key := after])
  {
    OwnRun(q, runs, t);
    TaskStepOnly(q, d, t, q.tasks[t], later, key);
    RunStepOnly(RunIn(runs, key), e, after);
    PairCoupled(q, runs, t, key, later, after);
  }

  lemma MarkFailedEnds(q: Queue, t: nat, key: Key, s: R.Run, e: R.Event)
    requires Ready(q, t, key, s) && q.tasks[t].phase == Raised && q.tasks[t].attempt >= q.limit
    requires e == if key in q.rows then R.MarkFailed(t) else R.GiveUp(t)
    requires key in q.rows ==> s.reviewer.Idle?
    ensures var later, after := MarkFailedStep(q, t, q.tasks[t]), R.Next(s, e);
            && t !in after.tasks && RowIn(later.rows, key) == after.row.processing && !AtWork(later.tasks[t].phase)
  {
  }

  lemma FailCoupled(j: Joint, t: nat)
    requires Coupled(j.q, j.runs)
    ensures Coupled(FailBoth(j, t).q, FailBoth(j, t).runs)
  {
    if FailBoth(j, t) != j {
      OwnRun(j.q, j.runs, t);
      var key := KeyOf(j.q.tasks[t].fields);
      var e := if key in j.q.rows then R.MarkFailed(t) else R.GiveUp(t);
      MarkFailedEnds(j.q, t, key, RunIn(j.runs, key), e);
      EndCoupled(j.q, j.runs, Event.MarkFailed(t), t, key, e, MarkFailedStep(j.q, t, j.q.tasks[t]),
          R.Next(RunIn(j.runs, key), e));
    }
  }

  lemma StopEnds(q: Queue, t: nat, key: Key, s: R.Run)
    requires Ready(q, t, key, s)
    ensures R.Next(s, R.Crash(t)) == s.(tasks := s.tasks - {t})
    ensures s.tasks[t].Failing? ==> R.Next(s, R.GiveUp(t)) == s.(tasks := s.tasks - {t})
  {
  }

  lemma GiveUpCoupled(j: Joint, t: nat)
    requires Coupled(j.q, j.runs)
    ensures Coupled(GiveUpBoth(j, t).q, GiveUpBoth(j, t).runs)
  {
    if GiveUpBoth(j, t) != j {
      OwnRun(j.q, j.runs, t);
      var key := KeyOf(j.q.tasks[t].fields);
      StopEnds(j.q, t, key, RunIn(j.runs, key));
      EndCoupled(j.q, j.runs, RecordFailure(t), t, key, R.GiveUp(t), RecordFailureStep(j.q, t, j.q.tasks[t]),
                 R.Next(RunIn(j.runs, key), R.GiveUp(t)));
    }
  }

  lemma DieCoupled(j: Joint, t: nat)
    requires Coupled(j.q, j.runs)
    ensures Coupled(DieBoth(j, t).q, DieBoth(j, t).runs)
  {
    if t in j.q.tasks {
      OwnRun(j.q, j.runs, t);
      if AtWork(j.q.tasks[t].phase) {
        var key := KeyOf(j.q.tasks[t].fields);
        StopEnds(j.q, t, key, RunIn(j.runs, key));
        EndCoupled(j.q, j.runs, Event.Crash(t), t, key, R.Crash(t), Done(j.q, t), R.Next(RunIn(j.runs, key),
            R.Crash(t)));
      } else {
        IdleCoupled(j.q, j.runs, t, Done(j.q, t));
      }
    }
  }

  /** A delivery that is not at work moves or ends without any run. */
  lemma IdleCoupled(q: Queue, runs: map<Key, R.Run>, t: nat, later: Queue)
    requires Coupled(q, runs) && t in q.tasks && !AtWork(q.tasks[t].phase)
    requires later == Done(q, t) || later == Moved(q, t, Doomed)
    ensures Coupled(later, runs)
  {
    forall u ensures SameTask(q, later, u) {
    }
    SameCoupled(q, runs, later);
  }

  lemma ReviewShape(s: R.Run, e: R.Event, after: R.Run)
    requires R.IsReview(e) && after == R.Next(s, e)
    ensures after.tasks == s.tasks
    ensures after.row == s.row || (e.ReviewCommit? && s.reviewer.Deciding? && after.row.processing == Complete)
    ensures e.ReviewCommit? && s.reviewer.Deciding? ==> after.row.processing == Complete
  {
  }

  lemma ReviewCoupled(j: Joint, key: Key, e: R.Event)
    requires Coupled(j.q, j.runs) && R.IsReview(e) && R.DecisionAnswered(RunIn(j.runs, key))
    ensures Coupled(ReviewBoth(j, key, e).q, ReviewBoth(j, key, e).runs)
  {
    var s := RunIn(j.runs, key);
    var after := R.Next(s, e);
    ReviewShape(s, e, after);
    assert RowIn(j.q.rows, key) == s.row.processing;
    if e.ReviewCommit? && s.reviewer.Deciding? {
      assert s.row.processing == AwaitingReview;
      ReviewedCoupled(j.q, j.runs, key, after, OutsideStep(j.q, Review(key)));
    } else {
      ReviewedCoupled(j.q, j.runs, key, after, j.q);
    }
  }

  lemma ReviewedCoupled(q: Queue, runs: map<Key, R.Run>, key: Key, after: R.Run, later: Queue)
    requires Coupled(q, runs) && after.tasks == RunIn(runs, key).tasks && later.tasks == q.tasks
    requires RowIn(later.rows, key) == after.row.processing
    requires later.rows == q.rows || later.rows == q.rows[key := Complete]
    ensures Coupled(later, runs[key := after])
  {
    forall k ensures RowIn(later.rows, k) == RunIn(runs[key := after], k).row.processing {
      assert RowIn(q.rows, k) == RunIn(runs, k).row.processing;
    }
    TasksCoupled(q, runs, later, runs[key := after]);
  }

  lemma TasksCoupled(q: Queue, runs: map<Key, R.Run>, later: Queue, now: map<Key, R.Run>)
    requires Coupled(q, runs) && later.tasks == q.tasks && (forall k :: RunIn(now, k).tasks == RunIn(runs, k).tasks)
    requires forall k :: RowIn(later.rows, k) == RunIn(now, k).row.processing
    ensures Coupled(later, now)
  {
    forall t | t in later.tasks ensures TaskCoupled(later.tasks[t], t, now) {
      assert TaskCoupled(q.tasks[t], t, runs);
    }
    forall k, t | t in RunIn(now, k).tasks ensures AttemptCoupled(later, k, t) {
      assert t in RunIn(runs, k).tasks;
      assert AttemptCoupled(q, k, t);
    }
  }

  // -------------------------------------------------------------------------- joint runs

  lemma QueueProjected(limit: int, events: seq<Event>, e: Event)
    ensures After(limit, events + [e]) == Next(After(limit, events), e)
  {
    assert (events + [e])[..|events|] == events;
  }

  lemma WithQueueProjected(limit: int, j: Joint, e: Event)
    requires Projected(limit, j)
    ensures Projected(limit, WithQueue(j, e))
  {
    QueueProjected(limit, j.events, e);
  }

  lemma WithRunProjected(limit: int, j: Joint, key: Key, e: R.Event)
    requires Projected(limit, j)
    ensures Projected(limit, WithRun(j, key, e))
  {
    var after := WithRun(j, key, e);
    R.AfterOne(R.START, HistoryIn(j.histories, key), e);
    forall k ensures RunIn(after.runs, k) == R.After(R.START, HistoryIn(after.histories, k)) {
      assert RunIn(j.runs, k) == R.After(R.START, HistoryIn(j.histories, k));
    }
  }

  lemma BothProjected(limit: int, j: Joint, d: Event, key: Key, e: R.Event)
    requires Projected(limit, j)
    ensures Projected(limit, Both(j, d, key, e))
  {
    WithQueueProjected(limit, j, d);
    WithRunProjected(limit, WithQueue(j, d), key, e);
  }

  /** Every joint step is a queue step, a run step, both, or nothing. */
  ghost predicate Simple(j: Joint, after: Joint) {
    || after == j
    || (exists d :: after == WithQueue(j, d))
    || (exists key, e :: after == WithRun(j, key, e))
    || (exists d, key, e :: after == Both(j, d, key, e))
  }

  lemma StepSimple(j: Joint, step: Step)
    ensures Simple(j, JointNext(j, step))
  {
  }

  lemma SimpleProjected(limit: int, j: Joint, after: Joint)
    requires Projected(limit, j) && Simple(j, after)
    ensures Projected(limit, after)
  {
    if after == j {
    } else if d :| after == WithQueue(j, d) {
      WithQueueProjected(limit, j, d);
    } else if key, e :| after == WithRun(j, key, e) {
      WithRunProjected(limit, j, key, e);
    } else {
      var d, key, e :| after == Both(j, d, key, e);
      BothProjected(limit, j, d, key, e);
    }
  }

  lemma RunsSound(limit: int, j: Joint)
    requires Projected(limit, j)
    ensures forall key :: R.AllSound(RunIn(j.runs, key)) && R.DecisionAnswered(RunIn(j.runs, key))
  {
    forall key ensures R.AllSound(RunIn(j.runs, key)) && R.DecisionAnswered(RunIn(j.runs, key)) {
      var s := R.EveryDecisionAnswered(HistoryIn(j.histories, key));
    }
  }

  lemma StepCoupled(limit: int, j: Joint, step: Step)
    requires Projected(limit, j) && Coupled(j.q, j.runs)
    ensures Coupled(JointNext(j, step).q, JointNext(j, step).runs)
  {
    RunsSound(limit, j);
    match step
    case OnQueue(d) =>
      if QueueOnly(d) {
        QueueOnlyCoupled(j.q, j.runs, d, Next(j.q, d));
      }
    case Begin(t) => BeginCoupled(j, t);
    case OnRun(e) =>
      if Inside(e) {
        RunCoupled(j, e);
      }
    case Fail(t) => FailCoupled(j, t);
    case GiveUp(t) => GiveUpCoupled(j, t);
    case Die(t) => DieCoupled(j, t);
    case OnReview(key, e) =>
      if R.IsReview(e) {
        ReviewCoupled(j, key, e);
      }
  }

  /** Over every joint run, with any number of deliveries and reviewers of any number of runs: the
      queue's part is a run of the delivery protocol, each run's part a run of the run protocol, and
      the two agree on every row and on every delivery at work, from its first step on. */
  lemma {:induction false} EveryJointRunCoupled(limit: int, steps: seq<Step>) returns (j: Joint)
    ensures j == JointAfter(limit, steps)
    ensures Projected(limit, j) && Coupled(j.q, j.runs)
    decreases |steps|
  {
    j := JointAfter(limit, steps);
    if steps != [] {
      var before := EveryJointRunCoupled(limit, steps[..|steps| - 1]);
      StepSimple(before, steps[|steps| - 1]);
      SimpleProjected(limit, before, j);
      StepCoupled(limit, before, steps[|steps| - 1]);
    }
  }

  lemma QueueSettles(q: Queue, e: Event, t: nat, key: Key, after: Queue)
    requires t in q.tasks && OfKey(q.tasks[t].fields, key) && q.tasks[t].phase != Delivery.Settled
              && after == Next(q, e)
    ensures t in after.tasks && after.tasks[t].phase == Delivery.Settled ==> Short(RowIn(after.rows, key))
  {
  }

  lemma StepSettles(j: Joint, step: Step, t: nat, key: Key, after: Joint)
    requires t in j.q.tasks && OfKey(j.q.tasks[t].fields, key) && j.q.tasks[t].phase != Delivery.Settled
    requires after == JointNext(j, step) && Coupled(after.q, after.runs)
    ensures t in after.q.tasks && after.q.tasks[t].phase == Delivery.Settled ==>
              Short(RunIn(after.runs, key).row.processing)
  {
    StepSimple(j, step);
    if after.q != j.q {
      if d :| after == WithQueue(j, d) {
        QueueSettles(j.q, d, t, key, after.q);
      } else {
        var d, k, e :| after == Both(j, d, k, e);
        QueueSettles(j.q, d, t, key, after.q);
      }
    }
    assert RowIn(after.q.rows, key) == RunIn(after.runs, key).row.processing;
  }

  /** So a delivery leaves its run to be acknowledged only by a step that leaves the run complete or
      awaiting review in its own store, or finds it so. */
  lemma SettledRunIsSettled(limit: int, steps: seq<Step>, step: Step, t: nat, key: Key) returns (j: Joint, after: Joint)
    requires t in JointAfter(limit, steps).q.tasks && OfKey(JointAfter(limit, steps).q.tasks[t].fields, key)
    requires JointAfter(limit, steps).q.tasks[t].phase != Delivery.Settled
    ensures j == JointAfter(limit, steps) && after == JointNext(j, step)
    ensures t in after.q.tasks && after.q.tasks[t].phase == Delivery.Settled ==>
              Short(RunIn(after.runs, key).row.processing)
  {
    j := EveryJointRunCoupled(limit, steps);
    after := JointNext(j, step);
    StepCoupled(limit, j, step);
    StepSettles(j, step, t, key, after);
  }

  lemma Extended(limit: int, steps: seq<Step>, j: Joint, step: Step) returns (longer: seq<Step>, after: Joint)
    requires j == JointAfter(limit, steps)
    ensures longer == steps + [step] && after == JointAfter(limit, longer) && after == JointNext(j, step)
  {
    longer := steps + [step];
    assert longer[..|steps|] == steps;
    after := JointNext(j, step);
  }

  lemma FirstEnqueued(limit: int, key: Key) returns (steps: seq<Step>, j: Joint)
    ensures j == JointAfter(limit, steps)
    ensures j.q.stream == Stream(map[Id(1, 0) := Fields(Some(Job(key)), None)], Id(1, 0), ZERO, map[])
    ensures j.q.tasks == map[] && j.q.rows == map[] && j.runs == map[]
  {
    steps, j := Extended(limit, [], Joint(Empty(limit), map[], [], map[]), OnQueue(Enqueue(key, Id(1, 0))));
  }

  lemma FirstRead(limit: int, key: Key) returns (steps: seq<Step>, j: Joint)
    ensures j == JointAfter(limit, steps)
    ensures j.q.tasks == map[0 := Task(Id(1, 0), Fields(Some(Job(key)), None), 1, Received)]
    ensures j.q.rows == map[] && j.runs == map[]
  {
    steps, j := FirstEnqueued(limit, key);
    assert NextUnread(j.q, Id(1, 0));
    steps, j := Extended(limit, steps, j, OnQueue(ReadNew(0, Id(1, 0))));
  }

  lemma FirstBegun(limit: int, key: Key) returns (steps: seq<Step>, j: Joint)
    ensures j == JointAfter(limit, steps)
    ensures j.q.tasks == map[0 := Task(Id(1, 0), Fields(Some(Job(key)), None), 1, Working)]
    ensures j.q.rows == map[] && j.runs == map[key := R.START.(tasks := map[0 := R.Loading(false)])]
  {
    steps, j := FirstRead(limit, key);
    steps, j := Extended(limit, steps, j, Step.Begin(0));
  }

  lemma FirstCreated(limit: int, key: Key) returns (steps: seq<Step>, j: Joint)
    ensures j == JointAfter(limit, steps)
    ensures j.q.tasks == map[0 := Task(Id(1, 0), Fields(Some(Job(key)), None), 1, Working)]
    ensures j.q.rows == map[key := Running] && j.runs == map[key := R.START.(tasks := map[0 := R.Loading(false)])]
  {
    steps, j := FirstBegun(limit, key);
    steps, j := Extended(limit, steps, j, OnQueue(Create(0)));
  }

  lemma FirstLoaded(j: Joint, key: Key, after: Joint)
    requires j.q.tasks == map[0 := Task(Id(1, 0), Fields(Some(Job(key)), None), 1, Working)]
    requires j.q.rows == map[key := Running] && j.runs == map[key := R.START.(tasks := map[0 := R.Loading(false)])]
    requires after == JointNext(j, OnRun(R.Load(0)))
    ensures after.q.tasks.Keys == {0} && after.q.tasks[0].phase == Delivery.Admitted
    ensures after.q.rows == map[key := Running]
    ensures RunIn(after.runs, key).tasks == map[0 := R.Admitted(false)] && RunIn(after.runs, key).row == R.NEW_ROW
  {
    FirstLooks(j.q, RunIn(j.runs, key), key);
    assert after == Both(j, Event.Load(0), key, R.Load(0));
  }

  /** Both sides let the first delivery past the first look. */
  lemma FirstLooks(q: Queue, s: R.Run, key: Key)
    requires q.tasks == map[0 := Task(Id(1, 0), Fields(Some(Job(key)), None), 1, Working)]
    requires q.rows == map[key := Running] && s == R.START.(tasks := map[0 := R.Loading(false)])
    ensures R.Next(s, R.Load(0)) == s.(tasks := map[0 := R.Admitted(false)])
    ensures Next(q, Event.Load(0)) == q.(tasks := q.tasks[0 := q.tasks[0].(phase := Delivery.Admitted)])
  {
    assert s.tasks[0 := R.Admitted(false)] == map[0 := R.Admitted(false)];
  }

  /** The very first delivery of a job is such a run: its row does not exist until it is created, and
      it gets past the first look on both sides. */
  lemma FirstDeliveryIsCovered(limit: int, key: Key) returns (steps: seq<Step>, j: Joint)
    ensures j == JointAfter(limit, steps)
    ensures j.q.tasks.Keys == {0} && j.q.tasks[0].phase == Delivery.Admitted && j.q.rows == map[key := Running]
    ensures RunIn(j.runs, key).tasks == map[0 := R.Admitted(false)] && RunIn(j.runs, key).row == R.NEW_ROW
  {
    steps, j := FirstCreated(limit, key);
    var created := j;
    steps, j := Extended(limit, steps, created, OnRun(R.Load(0)));
    FirstLoaded(created, key, j);
  }
}
