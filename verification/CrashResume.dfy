/** Crash-resume refinement: whatever happens to earlier deliveries of a job, the next one that
    is left alone ends exactly where a single undisturbed delivery would have. */
module CrashResume {
  import opened Options
  import opened Reconciliation
  import opened WorkflowGraph
  import opened RunProtocol

  // ------------------------------------------------------------- the undisturbed path

  /** The checkpoints an unreviewed run passes through, and the audit rows behind each. */
  datatype Path = Path(cps: seq<Checkpoint>, audits: seq<seq<AuditEvent>>)

  /** How many nodes lie behind a checkpoint that has not been reviewed. */
  function StageOf(next: Node): nat {
    match next
    case ExtractNode => 0
    case MatchNode => 1
    case SupervisorNode => 2
    case CompleteNode => 2
    case _ => 3
  }

  predicate IsPath(m: MatchResult, p: Path) {
    && |p.cps| == 4 && |p.audits| == 5
    && p.cps[0] == Initial(0) && p.audits[0] == []
    && (forall k :: 0 <= k < 3 ==> p.cps[k + 1] == Advance(m, p.cps[k], Approved))
    && (forall k :: 0 <= k < 4 ==> p.audits[k + 1] == NodeAudit(p.audits[k], p.cps[k]))
    && (forall k :: 0 <= k < 4 ==> StageOf(p.cps[k].next) == k && p.cps[k].next !in {ApproveNode, RejectNode})
    && (p.cps[3].next == EndNode ==> p.cps[3].values.processing == Complete)
  }

  function PathOf(m: MatchResult): Path {
    var c0 := Initial(0);
    var c1 := Advance(m, c0, Approved);
    var c2 := Advance(m, c1, Approved);
    var c3 := Advance(m, c2, Approved);
    var a1 := NodeAudit([], c0);
    var a2 := NodeAudit(a1, c1);
    var a3 := NodeAudit(a2, c2);
    Path([c0, c1, c2, c3], [[], a1, a2, a3, NodeAudit(a3, c3)])
  }

  lemma PathIsPath(m: MatchResult)
    ensures IsPath(m, PathOf(m))
  {
    var p := PathOf(m);
    assert p.cps[1].next == MatchNode;
    assert p.cps[2].next == if RequiresReview(m) then SupervisorNode else CompleteNode;
    assert p.cps[3].next == if RequiresReview(m) then ExceptionNode else EndNode;
  }

  /** The row at the end of the path: paused for review, or the final values. */
  function FinalRow(p: Path): Row
    requires |p.cps| == 4
  {
    if p.cps[3].next == EndNode then RowOf(p.cps[3].values) else AWAITING_ROW
  }

  // ------------------------------------------------------------------ the invariant

  predicate OnPath(p: Path, cp: Checkpoint)
    requires |p.cps| == 4
  {
    cp == p.cps[StageOf(cp.next)]
  }

  predicate AuditFits(p: Path, audit: seq<AuditEvent>, cp: Option<Checkpoint>)
    requires |p.audits| == 5
  {
    match cp
    case None => audit == []
    case Some(c) => audit == p.audits[StageOf(c.next)] || audit == p.audits[StageOf(c.next) + 1]
  }

  predicate AttemptFits(p: Path, s: Run, a: Attempt)
    requires |p.cps| == 4 && |p.audits| == 5
  {
    && (InGraph(a) ==> s.row.processing == Running || s.row.processing == Retrying)
    && (a.Admitted? ==> s.row.processing in {Running, Retrying} || (s.row.processing == RunFailed && a.replay))
    && (a.Driving? || a.Effected? ==> s.cp == Some(a.local) && a.local.next != EndNode)
    && (a.Effected? ==> s.audit == p.audits[StageOf(a.local.next) + 1])
    && (a.Returned? ==> s.cp == Some(a.local) && a.local == p.cps[3] && s.audit == p.audits[4])
  }

  /** A run that nobody has reviewed yet, with at most one delivery at work. */
  predicate Resumable(p: Path, s: Run)
    requires |p.cps| == 4 && |p.audits| == 5
  {
    && OneWorker(s) && s.reviewer.Idle? && s.decision.None?
    && (s.cp.Some? ==> OnPath(p, s.cp.value))
    && AuditFits(p, s.audit, s.cp)
    && (Settled(s) ==> s.row == FinalRow(p) && s.audit == p.audits[4] && s.cp == Some(p.cps[3]))
    && (forall t :: t in s.tasks ==> AttemptFits(p, s, s.tasks[t]))
  }

  predicate Settled(s: Run) {
    s.row.processing == Complete || s.row.processing == AwaitingReview
  }

  /** Repeating a node's own writes after a crash adds no audit row. */
  lemma EffectFits(m: MatchResult, p: Path, cp: Checkpoint, audit: seq<AuditEvent>)
    requires IsPath(m, p) && OnPath(p, cp) && AuditFits(p, audit, Some(cp))
    ensures NodeAudit(audit, cp) == p.audits[StageOf(cp.next) + 1]
  {
    var k := StageOf(cp.next);
    assert p.audits[k + 1] == NodeAudit(p.audits[k], p.cps[k]);
  }

  lemma AdvanceFits(m: MatchResult, p: Path, cp: Checkpoint, after: Checkpoint)
    requires IsPath(m, p) && OnPath(p, cp) && cp.next !in {ExceptionNode, EndNode}
    requires after == Advance(m, cp, Approved)
    ensures OnPath(p, after) && StageOf(after.next) == StageOf(cp.next) + 1
    ensures after.next in {ExceptionNode, EndNode} ==> after == p.cps[3]
    ensures after.next == EndNode ==> p.audits[4] == p.audits[3]
  {
    var k := StageOf(cp.next);
    assert cp.next !in {ApproveNode, RejectNode} by { assert p.cps[k].next == cp.next; }
    assert p.cps[k + 1] == Advance(m, p.cps[k], Approved);
    assert after == p.cps[k + 1];
    assert p.audits[4] == NodeAudit(p.audits[3], p.cps[3]);
  }

  lemma GraphStepResumable(m: MatchResult, p: Path, s: Run, e: Event, t: nat, a: Attempt, after: Run)
    requires IsPath(m, p) && Resumable(p, s) && t in s.tasks && s.tasks[t] == a && AttemptFits(p, s, a)
    requires a.Driving? || a.Effected?
    requires FindsOnly(m, e) && after == WorkerStep(s, e, t, a)
    ensures Resumable(p, after)
  {
    if e.WriteEffect? && a.Driving? {
      EffectFits(m, p, a.local, s.audit);
    } else if e.WriteCheckpoint? && a.Effected? && a.local.next != ExceptionNode {
      AdvanceFits(m, p, a.local, Advance(m, a.local, Approved));
    } else if e.WriteCheckpoint? && a.Effected? {
      assert a.local == p.cps[3];
    }
  }

  lemma OpenStepResumable(m: MatchResult, p: Path, s: Run, e: Event, t: nat, a: Attempt, after: Run)
    requires IsPath(m, p) && Resumable(p, s) && t in s.tasks && s.tasks[t] == a && AttemptFits(p, s, a)
    requires e.Open? && a.Opening?
    requires after == WorkerStep(s, e, t, a)
    ensures Resumable(p, after)
  {
    assert StageOf(ExtractNode) == 0;
    assert p.audits[4] == NodeAudit(p.audits[3], p.cps[3]);
  }

  lemma RowStepResumable(m: MatchResult, p: Path, s: Run, e: Event, t: nat, a: Attempt, after: Run)
    requires IsPath(m, p) && Resumable(p, s) && t in s.tasks && s.tasks[t] == a && AttemptFits(p, s, a)
    requires !(a.Driving? || a.Effected?)
    requires after == WorkerStep(s, e, t, a)
    ensures Resumable(p, after)
  {
    if e.Open? && a.Opening? {
      OpenStepResumable(m, p, s, e, t, a, after);
    }
  }

  lemma WorkerStepResumable(m: MatchResult, p: Path, s: Run, e: Event, t: nat, a: Attempt, after: Run)
    requires IsPath(m, p) && Resumable(p, s) && t in s.tasks && s.tasks[t] == a
    requires FindsOnly(m, e) && after == WorkerStep(s, e, t, a)
    ensures Resumable(p, after)
  {
    assert AttemptFits(p, s, a);
    if a.Driving? || a.Effected? {
      GraphStepResumable(m, p, s, e, t, a, after);
    } else {
      RowStepResumable(m, p, s, e, t, a, after);
    }
  }

  /** Matching finds the same thing whenever it runs. */
  predicate FindsOnly(m: MatchResult, e: Event) {
    e.WriteCheckpoint? || e.ReviewStep? ==> e.found == m
  }

  predicate AlwaysFinds(m: MatchResult, trace: seq<Event>) {
    forall i :: 0 <= i < |trace| ==> FindsOnly(m, trace[i])
  }

  predicate NoReview(trace: seq<Event>) {
    forall i :: 0 <= i < |trace| ==> !IsReview(trace[i])
  }

  lemma {:induction false} DisturbedRunsResumable(m: MatchResult, p: Path, trace: seq<Event>) returns (s: Run)
    requires IsPath(m, p) && Exclusive(START, trace) && NoReview(trace) && AlwaysFinds(m, trace)
    ensures s == After(START, trace)
    ensures Resumable(p, s)
    decreases |trace|
  {
    s := After(START, trace);
    if trace != [] {
      var n := |trace| - 1;
      var before := DisturbedRunsResumable(m, p, trace[..n]);
      var e := trace[n];
      assert !IsReview(e) && FindsOnly(m, e);
      if !e.Spawn? && e.t in before.tasks {
        WorkerStepResumable(m, p, before, e, e.t, before.tasks[e.t], s);
      }
    }
  }

  // ------------------------------------------------------- a delivery left alone

  /** What an undisturbed delivery does next. */
  function CleanEvent(m: MatchResult, t: nat, a: Attempt): Event {
    match a
    case Loading(_) => Load(t)
    case Admitted(_) => Reset(t)
    case Opening => Open(t)
    case Driving(_) => WriteEffect(t)
    case Effected(_) => WriteCheckpoint(t, m)
    case Returned(_) => CommitRow(t)
    case Thrown => PersistRetrying(t)
    case Failing => GiveUp(t)
  }

  function Phase(a: Attempt): nat {
    match a
    case Loading(_) => 5
    case Admitted(_) => 4
    case Opening => 3
    case Driving(_) => 2
    case Effected(_) => 2
    case Thrown => 1
    case _ => 0
  }

  function StepsIn(a: Attempt): nat {
    match a
    case Driving(local) => 2 * StepsLeft(local.next, local.values.iterations) + 1
    case Effected(local) => 2 * StepsLeft(local.next, local.values.iterations)
    case _ => 0
  }

  /** Let delivery `t` run until it is over, with nothing else happening. */
  function Undisturbed(m: MatchResult, s: Run, t: nat): Run
    decreases if t in s.tasks then Phase(s.tasks[t]) else 0,
              if t in s.tasks then StepsIn(s.tasks[t]) else 0,
              t in s.tasks
  {
    if t !in s.tasks || !s.reviewer.Idle? || Stuck(s.tasks[t]) then s
    else Undisturbed(m, Next(s, CleanEvent(m, t, s.tasks[t])), t)
  }

  /** Never so in a reachable state: driving past the end of the graph. */
  predicate Stuck(a: Attempt) {
    (a.Driving? || a.Effected?) && a.local.next == EndNode
  }

  predicate WillSettle(s: Run, a: Attempt) {
    match a
    case Loading(replay) => s.row.processing != RunFailed || replay
    case Thrown => false
    case Failing => false
    case _ => true
  }

  /** The next clean step gets nearer to the end. */
  predicate Nearer(a: Attempt, next: Attempt) {
    Phase(next) < Phase(a) || (Phase(next) == Phase(a) && StepsIn(next) < StepsIn(a))
  }

  lemma CleanGraphStep(m: MatchResult, p: Path, s: Run, t: nat, a: Attempt, next: Run)
    requires IsPath(m, p) && Resumable(p, s) && t in s.tasks && s.tasks[t] == a && AttemptFits(p, s, a)
    requires a.Driving? || a.Effected?
    requires next == WorkerStep(s, CleanEvent(m, t, a), t, a) && t in next.tasks
    ensures WillSettle(next, next.tasks[t]) && !Stuck(a) && Nearer(a, next.tasks[t])
  {
  }

  lemma UndisturbedStep(m: MatchResult, p: Path, s: Run, t: nat, a: Attempt, next: Run)
    requires IsPath(m, p) && Resumable(p, s) && t in s.tasks && s.tasks[t] == a && AttemptFits(p, s, a)
    requires WillSettle(s, a) && next == WorkerStep(s, CleanEvent(m, t, a), t, a) && t in next.tasks
    ensures WillSettle(next, next.tasks[t]) && !Stuck(a) && Nearer(a, next.tasks[t])
  {
    if a.Driving? || a.Effected? {
      CleanGraphStep(m, p, s, t, a, next);
    }
  }

  lemma {:induction false} UndisturbedSettles(m: MatchResult, p: Path, s: Run, t: nat) returns (final: Run)
    requires IsPath(m, p) && Resumable(p, s) && t in s.tasks && WillSettle(s, s.tasks[t])
    ensures final == Undisturbed(m, s, t)
    ensures Resumable(p, final) && Settled(final)
    decreases Phase(s.tasks[t]), StepsIn(s.tasks[t])
  {
    var a := s.tasks[t];
    assert AttemptFits(p, s, a);
    var next := Next(s, CleanEvent(m, t, a));
    WorkerStepResumable(m, p, s, CleanEvent(m, t, a), t, a, next);
    if t in next.tasks {
      UndisturbedStep(m, p, s, t, a, next);
      final := UndisturbedSettles(m, p, next, t);
    } else {
      final := next;
    }
  }

  /** Crash any number of times, at any step, with any node failures, failed-run marks and replays in
      between, as long as matching keeps finding the same: the next undisturbed delivery ends with the
      same row, the same checkpoint and the same audit rows as one undisturbed delivery from the
      start. A run already marked failed needs an operator replay for that; an ordinary redelivery of
      it raises before the graph and leaves everything as it is. */
  lemma CrashResumeRefinement(m: MatchResult, trace: seq<Event>, t: nat, replay: bool)
    returns (s: Run, resumed: Run, reference: Run)
    requires Exclusive(START, trace) && NoReview(trace) && AlwaysFinds(m, trace)
    requires After(START, trace).tasks == map[]
    ensures s == After(START, trace)
    ensures resumed == Undisturbed(m, Next(s, Spawn(t, replay)), t)
    ensures reference == Undisturbed(m, Next(START, Spawn(t, false)), t)
    ensures reference.row ==
              if RequiresReview(m) then AWAITING_ROW
              else Row(LabelComplete, Complete, if m.recon == Some(Reconciled) then ReadyForPosting else NotReady)
    ensures reference.audit ==
              if RequiresReview(m) then [AuditExtracted, AuditTriaged, AuditExceptionRaised]
              else [AuditExtracted, AuditCompleted]
    ensures s.row.processing != RunFailed || replay ==>
              resumed.row == reference.row && resumed.cp == reference.cp && resumed.audit == reference.audit
    ensures s.row.processing == RunFailed && !replay ==> resumed == s
  {
    var p := PathOf(m);
    PathIsPath(m);
    s := DisturbedRunsResumable(m, p, trace);
    var start := DisturbedRunsResumable(m, p, []);
    var first := SpawnResumable(m, p, start, t, false);
    reference := UndisturbedSettles(m, p, first, t);
    FinalRowMeaning(m);
    PathAudit(m);
    var spawned := SpawnResumable(m, p, s, t, replay);
    if s.row.processing == RunFailed && !replay {
      FailedRunRaises(m, s, t);
      resumed := s;
    } else {
      resumed := UndisturbedSettles(m, p, spawned, t);
    }
  }

  lemma SpawnResumable(m: MatchResult, p: Path, s: Run, t: nat, replay: bool) returns (after: Run)
    requires IsPath(m, p) && Resumable(p, s) && s.tasks == map[]
    ensures after == Next(s, Spawn(t, replay)) && Resumable(p, after)
    ensures t in after.tasks && after.tasks[t] == Loading(replay) && after.row == s.row
  {
    after := Next(s, Spawn(t, replay));
  }

  /** Where the undisturbed path ends: paused when something needs review, otherwise complete,
      and ready for posting exactly when the shipment reconciled. */
  lemma FinalRowMeaning(m: MatchResult)
    ensures FinalRow(PathOf(m)) ==
              if RequiresReview(m) then AWAITING_ROW
              else Row(LabelComplete, Complete, if m.recon == Some(Reconciled) then ReadyForPosting else NotReady)
  {
    PathIsPath(m);
    var p := PathOf(m);
    assert p.cps[2].next == if RequiresReview(m) then SupervisorNode else CompleteNode;
    assert p.cps[3].next == if RequiresReview(m) then ExceptionNode else EndNode;
  }

  /** The audit rows of an unreviewed run: extraction and completion, or everything up to the
      interrupt. */
  lemma PathAudit(m: MatchResult)
    ensures PathOf(m).audits[4] ==
              if RequiresReview(m) then [AuditExtracted, AuditTriaged, AuditExceptionRaised]
              else [AuditExtracted, AuditCompleted]
  {
    PathIsPath(m);
    var p := PathOf(m);
    assert p.cps[1].next == MatchNode;
    assert p.cps[2].next == if RequiresReview(m) then SupervisorNode else CompleteNode;
    assert p.cps[3].next == if RequiresReview(m) then ExceptionNode else EndNode;
    assert p.audits[1] == [AuditExtracted] && p.audits[2] == [AuditExtracted];
  }

  /** From a document to the row: an undisturbed first delivery without a document or a load number,
      or with a failed content check, pauses for review; any other completes, and is ready for
      posting exactly when all nine checks passed. */
  lemma DeliveryOutcome(input: MatchInput, t: nat) returns (s: Run)
    ensures s == Undisturbed(Matched(input), Next(START, Spawn(t, false)), t) && s.cp.Some?
    ensures input.NoDocument? || input.NoLoad? || ContentFailed(input) ==>
              && s.row == Row(LabelAwaiting, AwaitingReview, NotReady) && s.cp.value.next == ExceptionNode
              && s.audit == [AuditExtracted, AuditTriaged, AuditExceptionRaised]
    ensures input.Assembled? && !ContentFailed(input) ==>
              && s.row == Row(LabelComplete, Complete, if CleanMatch(input) then ReadyForPosting else NotReady)
              && s.cp.value.next == EndNode && s.audit == [AuditExtracted, AuditCompleted]
  {
    var m, p := Matched(input), PathOf(Matched(input));
    PathIsPath(m);
    var start := DisturbedRunsResumable(m, p, []);
    var first := SpawnResumable(m, p, start, t, false);
    s := UndisturbedSettles(m, p, first, t);
    FinalRowMeaning(m);
    PathAudit(m);
    ReviewAskedIff(input);
    ReconciledMeansClean(input);
    assert p.cps[2].next == if RequiresReview(m) then SupervisorNode else CompleteNode;
    assert p.cps[3].next == if RequiresReview(m) then ExceptionNode else EndNode;
  }

  lemma FailedRunRaises(m: MatchResult, s: Run, t: nat)
    requires s.tasks == map[] && s.reviewer.Idle? && s.row.processing == RunFailed
    ensures Undisturbed(m, Next(s, Spawn(t, false)), t) == s
  {
    var spawned := Next(s, Spawn(t, false));
    var failing := Next(spawned, Load(t));
    assert failing == s.(tasks := map[t := Failing]);
    assert Next(failing, GiveUp(t)).tasks == map[];
    assert Next(failing, GiveUp(t)) == s;
    assert Undisturbed(m, failing, t) == s;
  }
}
