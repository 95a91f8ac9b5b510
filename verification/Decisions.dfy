/** What becomes of a review decision: when retrying it repairs a crash between its two commits, when
    it is lost, and which steps rewrite a row that shows it. */
module Decisions {
  import opened Options
  import opened WorkflowGraph
  import opened RunProtocol
  import opened CrashResume

  /** Is this a worker's last-attempt failure handler rewriting the row? */
  predicate OverwritesAsFailed(s: Run, e: Event) {
    e.MarkFailed? && e.t in s.tasks && s.tasks[e.t].Failing? && s.reviewer.Idle?
  }

  // -------------------------------------------------------------------------- repair

  /** Can asking for the checkpoint's decision again still record it? */
  predicate Repairable(s: Run) {
    s.decision.None? && s.row.processing == AwaitingReview
  }

  /** Repair after a crash between the two commits, with the checkpoint already holding a decision: as
      long as the run awaits review, asking for that decision again goes straight to the commit
      without running the graph. Asking for the other one, or when the run no longer awaits review,
      changes nothing. */
  lemma RepairReusesCheckpoint(s: Run, wanted: Answer) returns (locked: Run, committed: Run)
    requires s.reviewer.Idle? && Decided(CheckpointAnswer(s)) && Decided(Some(wanted))
    ensures locked == Next(s, ReviewBegin(wanted)) && committed == Next(locked, ReviewCommit)
    ensures Repairable(s) && CheckpointAnswer(s) == Some(wanted) ==>
              && locked == s.(reviewer := Deciding(wanted))
              && committed.decision == Some(wanted) && committed.row == DecisionRow(wanted)
              && committed.cp == s.cp && committed.answered == s.answered && committed.found == s.found
    ensures !Repairable(s) || CheckpointAnswer(s) != Some(wanted) ==> committed == s
  {
    locked := Next(s, ReviewBegin(wanted));
    committed := Next(locked, ReviewCommit);
  }

  /** Exactly when a review call gets to work: the run awaits review with no decision recorded, and its
      checkpoint holds the wanted decision, or none while there are nodes left to run. */
  lemma ReviewAdmittedIff(s: Run, wanted: Answer)
    requires s.reviewer.Idle? && (wanted == Approved || wanted == Rejected)
    ensures Next(s, ReviewBegin(wanted)) != s <==>
              && s.decision.None? && s.row.processing == AwaitingReview && s.cp.Some?
              && (|| s.cp.value.values.answer == Some(wanted)
                  || (s.cp.value.values.answer != Some(Approved) && s.cp.value.values.answer != Some(Rejected)
                      && s.cp.value.next != EndNode))
  {
  }

  // -------------------------------------------------------------- the lost decision

  /** The checkpoint holds a decision that was never recorded, and the run no longer awaits review. */
  predicate Lost(s: Run) {
    CheckpointAnswer(s).Some? && s.decision.None? && s.row.processing != AwaitingReview
  }

  /** The last-attempt handler fails a run whose decision is in the checkpoint and not recorded yet. */
  predicate LosesDecision(s: Run, e: Event) {
    OverwritesAsFailed(s, e) && CheckpointAnswer(s).Some? && s.decision.None?
  }

  predicate OneAtATime(s: Run, e: Event) {
    e.Spawn? ==> s.tasks == map[]
  }

  lemma WorkerLoses(s: Run, e: Event, t: nat, a: Attempt, after: Run)
    requires Agreed(s) && t in s.tasks && s.tasks[t] == a && AttemptAgrees(s, a) && AttemptSound(s.answered, s.found, a)
    requires !IsReview(e) && !e.Spawn? && e.t == t && after == WorkerStep(s, e, t, a)
    ensures Lost(after) <==> Lost(s) || LosesDecision(s, e)
  {
    if e.WriteCheckpoint? && a.Effected? && a.local.next != ExceptionNode {
      AdvanceRegular(e.found, a.local, Approved, Advance(e.found, a.local, Approved));
    }
  }

  /** Exactly which step loses a decision; and a lost one stays lost. */
  lemma LostIff(s: Run, e: Event, after: Run)
    requires AllSound(s) && Agreed(s) && OneAtATime(s, e) && after == Next(s, e)
    ensures Lost(after) <==> Lost(s) || LosesDecision(s, e)
  {
    if !IsReview(e) && !e.Spawn? && e.t in s.tasks {
      assert AttemptAgrees(s, s.tasks[e.t]) && AttemptSound(s.answered, s.found, s.tasks[e.t]);
      WorkerLoses(s, e, e.t, s.tasks[e.t], after);
    }
  }

  /** Some step of the run loses the decision. */
  ghost predicate SomeLoss(trace: seq<Event>) {
    trace != [] &&
    (var n := |trace| - 1;
     SomeLoss(trace[..n]) || LosesDecision(After(START, trace[..n]), trace[n]))
  }

  /** With one worker per run: a decision in the checkpoint can no longer be recorded, now or ever, if
      and only if a last-attempt handler failed the run between the review's two commits. */
  lemma {:induction false} LostIffOverwritten(trace: seq<Event>) returns (s: Run)
    requires Exclusive(START, trace)
    ensures s == After(START, trace) && (Lost(s) <==> SomeLoss(trace))
    decreases |trace|
  {
    s := After(START, trace);
    if trace != [] {
      var n := |trace| - 1;
      var before := LostIffOverwritten(trace[..n]);
      var same := EveryExclusiveRunAgrees(trace[..n]);
      LostIff(before, trace[n], s);
    }
  }

  /** So a row that shows a decision has it recorded, unless the run lost it before. */
  lemma DecidedRowIsRecorded(trace: seq<Event>) returns (s: Run)
    requires Exclusive(START, trace)
    ensures s == After(START, trace)
    ensures s.row.processing == Complete && CheckpointAnswer(s).Some? ==>
              && s.row == DecisionRow(CheckpointAnswer(s).value)
              && (s.decision == CheckpointAnswer(s) <==> !SomeLoss(trace))
  {
    s := LostIffOverwritten(trace);
    var same := EveryExclusiveRunAgrees(trace);
  }

  /** The row shows the checkpoint's decision, and no decision is recorded. */
  predicate Unrecorded(s: Run) {
    CheckpointAnswer(s).Some? && s.decision.None? && s.row.processing == Complete
  }

  /** A worker commits the end of a graph whose checkpoint holds a decision nobody recorded. */
  predicate CommitsAnswer(s: Run, e: Event) {
    && e.CommitRow? && e.t in s.tasks && s.tasks[e.t].Returned? && s.reviewer.Idle?
    && s.tasks[e.t].local.values.answer.Some? && s.decision.None?
  }

  lemma WorkerUnrecords(s: Run, e: Event, t: nat, a: Attempt, after: Run)
    requires Agreed(s) && t in s.tasks && s.tasks[t] == a && AttemptAgrees(s, a) && AttemptSound(s.answered, s.found, a)
    requires !Unrecorded(s) && !IsReview(e) && !e.Spawn? && e.t == t && after == WorkerStep(s, e, t, a)
    ensures Unrecorded(after) <==> CommitsAnswer(s, e)
  {
    if e.CommitRow? && a.Returned? && a.local.next == EndNode {
      NormalEnd(OwnMatch(a.local), a.local);
    }
    if e.WriteCheckpoint? && a.Effected? && a.local.next != ExceptionNode {
      AdvanceRegular(e.found, a.local, Approved, Advance(e.found, a.local, Approved));
    }
  }

  /** Exactly which step leaves a row approved or rejected with no decision recorded: a worker's commit,
      which only a run whose decision was lost before comes to. The row is then the decision's. */
  lemma UnrecordedIff(s: Run, e: Event, after: Run)
    requires AllSound(s) && Agreed(s) && OneAtATime(s, e) && after == Next(s, e) && !Unrecorded(s)
    ensures Unrecorded(after) <==> CommitsAnswer(s, e)
    ensures Unrecorded(after) ==> Lost(s) && after.row == DecisionRow(CheckpointAnswer(after).value)
  {
    if !IsReview(e) && !e.Spawn? && e.t in s.tasks {
      assert AttemptAgrees(s, s.tasks[e.t]) && AttemptSound(s.answered, s.found, s.tasks[e.t]);
      WorkerUnrecords(s, e, e.t, s.tasks[e.t], after);
    }
    StepAgrees(s, e, after);
  }

  // ---------------------------------------------- an answered run stays in step

  /** Once the checkpoint holds a decision, the run awaits review, or the decision is recorded and
      the row shows it. */
  predicate InStep(s: Run) {
    match CheckpointAnswer(s)
    case None => true
    case Some(wanted) =>
      || (s.decision.None? && s.row == AWAITING_ROW)
      || (s.decision == Some(wanted) && s.row == DecisionRow(wanted))
  }

  predicate OverwritesAnswered(s: Run, e: Event) {
    OverwritesAsFailed(s, e) && CheckpointAnswer(s).Some?
  }

  lemma WorkerInStep(s: Run, e: Event, t: nat, a: Attempt, after: Run)
    requires Agreed(s) && t in s.tasks && s.tasks[t] == a && AttemptAgrees(s, a) && AttemptSound(s.answered, s.found, a)
    requires InStep(s) && !IsReview(e) && !e.Spawn? && e.t == t && after == WorkerStep(s, e, t, a)
    ensures InStep(after) <==> !OverwritesAnswered(s, e)
  {
    if e.WriteCheckpoint? && a.Effected? && a.local.next != ExceptionNode {
      AdvanceRegular(e.found, a.local, Approved, Advance(e.found, a.local, Approved));
    }
  }

  /** Exactly which step gets an answered run out of step: the last-attempt handler's. */
  lemma InStepKeptIff(s: Run, e: Event, after: Run)
    requires AllSound(s) && Agreed(s) && OneAtATime(s, e) && InStep(s) && after == Next(s, e)
    ensures InStep(after) <==> !OverwritesAnswered(s, e)
  {
    if !IsReview(e) && !e.Spawn? && e.t in s.tasks {
      assert AttemptAgrees(s, s.tasks[e.t]) && AttemptSound(s.answered, s.found, s.tasks[e.t]);
      WorkerInStep(s, e, e.t, s.tasks[e.t], after);
    }
  }

  ghost predicate NeverOverwritten(trace: seq<Event>) {
    trace == [] ||
    (var n := |trace| - 1;
     NeverOverwritten(trace[..n]) && !OverwritesAnswered(After(START, trace[..n]), trace[n]))
  }

  /** With one worker per run, over every run in which no last-attempt handler fires on an answered
      checkpoint: from the moment the checkpoint holds a decision, the run awaits review until that
      decision is recorded, and shows it from then on. */
  lemma {:induction false} AnsweredStaysInStep(trace: seq<Event>) returns (s: Run)
    requires Exclusive(START, trace) && NeverOverwritten(trace)
    ensures s == After(START, trace) && InStep(s)
    decreases |trace|
  {
    s := After(START, trace);
    if trace != [] {
      var n := |trace| - 1;
      var before := AnsweredStaysInStep(trace[..n]);
      var same := EveryExclusiveRunAgrees(trace[..n]);
      InStepKeptIff(before, trace[n], s);
    }
  }

  // ------------------------------------------- the decided row, for any number of workers

  function CommittedRow(cp: Checkpoint): Row {
    if cp.next == EndNode then RowOf(cp.values) else AWAITING_ROW
  }

  /** A worker's step that writes another row. */
  predicate RewritesRow(s: Run, e: Event) {
    && s.reviewer.Idle?
    && (|| (e.MarkFailed? && e.t in s.tasks && s.tasks[e.t].Failing?)
        || (e.PersistRetrying? && e.t in s.tasks && s.tasks[e.t].Thrown?)
        || (e.CommitRow? && e.t in s.tasks && s.tasks[e.t].Returned? && CommittedRow(s.tasks[e.t].local) != s.row))
  }

  /** For any number of overlapping workers, exactly which steps change a decided row. */
  lemma DecidedRowKeptIff(s: Run, e: Event, wanted: Answer, after: Run)
    requires AllSound(s) && DecisionAnswered(s)
    requires s.decision == Some(wanted) && s.row == DecisionRow(wanted)
    requires after == Next(s, e)
    ensures after.row == DecisionRow(wanted) <==> !RewritesRow(s, e)
  {
  }

  /** With one worker per run, none of them but the last-attempt handler's. */
  lemma AloneOnlyHandlerRewrites(s: Run, e: Event, wanted: Answer)
    requires AllSound(s) && Agreed(s) && s.decision == Some(wanted) && s.row == DecisionRow(wanted)
    ensures RewritesRow(s, e) <==> OverwritesAsFailed(s, e)
  {
    if !IsReview(e) && !e.Spawn? && e.t in s.tasks {
      assert AttemptAgrees(s, s.tasks[e.t]);
    }
  }

  ghost predicate NoRewriteFrom(trace: seq<Event>, n: nat) {
    |trace| <= n ||
    (var k := |trace| - 1;
     NoRewriteFrom(trace[..k], n) && !RewritesRow(After(START, trace[..k]), trace[k]))
  }

  ghost predicate NoOverwriteFrom(trace: seq<Event>, n: nat) {
    |trace| <= n ||
    (var k := |trace| - 1;
     NoOverwriteFrom(trace[..k], n) && !OverwritesAsFailed(After(START, trace[..k]), trace[k]))
  }

  /** So over every run, with any number of workers, a decided row stays as decided until such a
      step. */
  lemma {:induction false} DecidedRowKept(trace: seq<Event>, n: nat, early: Run, wanted: Answer) returns (late: Run)
    requires n <= |trace| && early == After(START, trace[..n]) && NoRewriteFrom(trace, n)
    requires early.decision == Some(wanted) && early.row == DecisionRow(wanted)
    ensures late == After(START, trace) && late.decision == Some(wanted) && late.row == DecisionRow(wanted)
    decreases |trace|
  {
    if n == |trace| {
      assert trace[..n] == trace;
      late := early;
    } else {
      var k := |trace| - 1;
      assert trace[..k][..n] == trace[..n];
      var before := DecidedRowKept(trace[..k], n, early, wanted);
      var same := EveryDecisionAnswered(trace[..k]);
      late := After(START, trace);
      DecisionStep(before, trace[k], late);
      DecidedRowKeptIff(before, trace[k], wanted, late);
    }
  }

  /** And with one worker per run until a last-attempt handler fires. */
  lemma {:induction false} DecidedRowKeptAlone(trace: seq<Event>, n: nat, early: Run, wanted: Answer)
    returns (late: Run)
    requires Exclusive(START, trace) && n <= |trace| && early == After(START, trace[..n]) && NoOverwriteFrom(trace, n)
    requires early.decision == Some(wanted) && early.row == DecisionRow(wanted)
    ensures late == After(START, trace) && late.decision == Some(wanted) && late.row == DecisionRow(wanted)
    ensures NoRewriteFrom(trace, n)
    decreases |trace|
  {
    if n < |trace| {
      var k := |trace| - 1;
      assert trace[..k][..n] == trace[..n];
      var before := DecidedRowKeptAlone(trace[..k], n, early, wanted);
      var same := EveryExclusiveRunAgrees(trace[..k]);
      AloneOnlyHandlerRewrites(before, trace[k], wanted);
    }
    late := DecidedRowKept(trace, n, early, wanted);
  }

  // ------------------------------------------------------------- the runs that do it

  /** The overwrite does happen: a redelivery whose records fail to load on its last attempt turns
      any decided row into a failed one, while the decision stays recorded. */
  lemma FinalFailureOverwritesDecision(s: Run, t: nat, wanted: Answer)
    requires s.tasks == map[] && s.reviewer.Idle?
    requires s.decision == Some(wanted) && s.row == DecisionRow(wanted)
    ensures var after := After(s, [Spawn(t, false), RowFails(t), MarkFailed(t)]);
            after.row == FAILED_ROW && after.decision == Some(wanted) && after.row != DecisionRow(wanted)
  {
    var s1 := Next(s, Spawn(t, false));
    var s2 := Next(s1, RowFails(t));
    assert [Spawn(t, false), RowFails(t), MarkFailed(t)][..2] == [Spawn(t, false), RowFails(t)];
    assert [Spawn(t, false), RowFails(t)][..1] == [Spawn(t, false)];
    assert [Spawn(t, false)][..0] == [];
    assert After(s, [Spawn(t, false)]) == s1;
    assert After(s, [Spawn(t, false), RowFails(t)]) == s2;
  }

  /** A run from the start, one worker at a time if `alone`. */
  ghost predicate Reached(trace: seq<Event>, s: Run, alone: bool) {
    s == After(START, trace) && (alone ==> Exclusive(START, trace))
  }

  lemma Step(trace: seq<Event>, s: Run, alone: bool, e: Event) returns (longer: seq<Event>, after: Run)
    requires Reached(trace, s, alone) && (alone ==> OneAtATime(s, e))
    ensures Reached(longer, after, alone) && after == Next(s, e)
  {
    longer, after := trace + [e], Next(s, e);
    assert longer[..|trace|] == trace;
  }

  /** Where a delivery is at a checkpoint: past its end, or about to run its next node. */
  function Drives(cp: Checkpoint): Attempt {
    if cp.next == EndNode then Returned(cp) else Driving(cp)
  }

  /** What graph steps of a delivery leave alone. */
  predicate OnlyGraph(s: Run, after: Run, t: nat) {
    && after.row == s.row && after.decision == s.decision && after.reviewer == s.reviewer
    && t in after.tasks && after.tasks == s.tasks[t := after.tasks[t]]
  }

  lemma DriveNode(trace: seq<Event>, s: Run, alone: bool, t: nat, m: MatchResult)
    returns (longer: seq<Event>, after: Run)
    requires Reached(trace, s, alone) && t in s.tasks && s.tasks[t].Driving? && s.tasks[t].local.next != ExceptionNode
    ensures Reached(longer, after, alone) && OnlyGraph(s, after, t)
    ensures after.cp == Some(Advance(m, s.tasks[t].local, Approved))
    ensures after.tasks[t] == Drives(after.cp.value)
  {
    longer, after := Step(trace, s, alone, WriteEffect(t));
    longer, after := Step(longer, after, alone, WriteCheckpoint(t, m));
  }

  lemma PauseNode(trace: seq<Event>, s: Run, alone: bool, t: nat, m: MatchResult)
    returns (longer: seq<Event>, after: Run)
    requires Reached(trace, s, alone) && t in s.tasks && s.tasks[t].Driving? && s.tasks[t].local.next == ExceptionNode
    ensures Reached(longer, after, alone) && OnlyGraph(s, after, t) && after.cp == s.cp
    ensures after.tasks[t] == Returned(s.tasks[t].local)
  {
    longer, after := Step(trace, s, alone, WriteEffect(t));
    longer, after := Step(longer, after, alone, WriteCheckpoint(t, m));
  }

  lemma AdmitDelivery(trace: seq<Event>, s: Run, alone: bool, t: nat, replay: bool)
    returns (longer: seq<Event>, after: Run)
    requires Reached(trace, s, alone) && t !in s.tasks && (alone ==> s.tasks == map[])
    requires s.row.processing in {Running, Retrying} || (s.row.processing == RunFailed && replay)
    ensures Reached(longer, after, alone) && after == s.(tasks := s.tasks[t := Admitted(replay)])
  {
    longer, after := Step(trace, s, alone, Spawn(t, replay));
    longer, after := Step(longer, after, alone, Load(t));
    assert after.tasks == s.tasks[t := Admitted(replay)];
  }

  /** Up to the graph: the row lets the delivery in, or a replay resets it. */
  lemma OpenDelivery(trace: seq<Event>, s: Run, alone: bool, t: nat, replay: bool)
    returns (longer: seq<Event>, after: Run)
    requires Reached(trace, s, alone) && t !in s.tasks && (alone ==> s.tasks == map[]) && s.reviewer.Idle?
    requires s.row.processing in {Running, Retrying} || (s.row.processing == RunFailed && replay)
    ensures Reached(longer, after, alone) && after.decision == s.decision && after.reviewer == s.reviewer
    ensures after.row == if s.row.processing == RunFailed then RETRYING_ROW else s.row
    ensures after.cp == if s.cp.None? then Some(Initial(0)) else s.cp
    ensures after.tasks == s.tasks[t := Drives(after.cp.value)]
  {
    longer, after := AdmitDelivery(trace, s, alone, t, replay);
    longer, after := Step(longer, after, alone, Reset(t));
    longer, after := Step(longer, after, alone, Open(t));
  }

  /** Nobody at work on a run, or the given deliveries, with this row and checkpoint. */
  predicate At(s: Run, row: Row, cp: Checkpoint, tasks: map<nat, Attempt>) {
    s.row == row && s.cp == Some(cp) && s.tasks == tasks && s.decision.None? && s.reviewer.Idle?
  }

  /** The checkpoint at which a run that needs review pauses. */
  function PausedAt(m: MatchResult): Checkpoint {
    PathOf(m).cps[3]
  }

  /** The first delivery of a run that needs review has come to the interrupt and not committed yet. */
  lemma FirstReturns(m: MatchResult, alone: bool) returns (trace: seq<Event>, s: Run)
    requires RequiresReview(m)
    ensures Reached(trace, s, alone) && PausedAt(m).next == ExceptionNode && PausedAt(m).values.answer.None?
    ensures At(s, NEW_ROW, PausedAt(m), map[0 := Returned(PausedAt(m))])
  {
    var p := PathOf(m);
    PathIsPath(m);
    assert p.cps[1].next == MatchNode && p.cps[2].next == SupervisorNode && p.cps[3].next == ExceptionNode;
    trace, s := OpenDelivery([], START, alone, 0, false);
    trace, s := DriveNode(trace, s, alone, 0, m);
    trace, s := DriveNode(trace, s, alone, 0, m);
    trace, s := DriveNode(trace, s, alone, 0, m);
    trace, s := PauseNode(trace, s, alone, 0, m);
  }

  /** A reviewer resumes the graph at this checkpoint. */
  predicate Reviewing(s: Run, wanted: Answer, cp: Checkpoint, pending: bool, tasks: map<nat, Attempt>) {
    && s.row == AWAITING_ROW && s.cp == Some(cp) && s.tasks == tasks && s.decision.None?
    && s.reviewer == Resuming(wanted, cp, pending)
  }

  lemma BeginReview(trace: seq<Event>, s: Run, alone: bool, wanted: Answer, paused: Checkpoint,
                    tasks: map<nat, Attempt>)
    returns (longer: seq<Event>, after: Run)
    requires Reached(trace, s, alone) && At(s, AWAITING_ROW, paused, tasks)
    requires Decided(Some(wanted)) && paused.next == ExceptionNode && paused.values.answer.None?
    ensures Reached(longer, after, alone) && Reviewing(after, wanted, paused, true, tasks)
  {
    longer, after := Step(trace, s, alone, ReviewBegin(wanted));
  }

  lemma AnswerPaused(m: MatchResult, trace: seq<Event>, s: Run, alone: bool, wanted: Answer, paused: Checkpoint,
                     tasks: map<nat, Attempt>) returns (longer: seq<Event>, after: Run)
    requires Reached(trace, s, alone) && Reviewing(s, wanted, paused, true, tasks) && paused.next == ExceptionNode
    ensures Reached(longer, after, alone) && Reviewing(after, wanted, Advance(m, paused, wanted), false, tasks)
  {
    longer, after := Step(trace, s, alone, ReviewStep(m));
  }

  lemma ReviewNode(m: MatchResult, trace: seq<Event>, s: Run, alone: bool, wanted: Answer, local: Checkpoint,
                   tasks: map<nat, Attempt>) returns (longer: seq<Event>, after: Run)
    requires Reached(trace, s, alone) && Reviewing(s, wanted, local, false, tasks)
              && local.next !in {ExceptionNode, EndNode}
    ensures Reached(longer, after, alone) && Reviewing(after, wanted, Advance(m, local, Approved), false, tasks)
  {
    longer, after := Step(trace, s, alone, ReviewStep(m));
  }

  /** A reviewer's resume is cut off after its first node: the decision is in the checkpoint only. */
  lemma CutOff(m: MatchResult, wanted: Answer) returns (trace: seq<Event>, s: Run)
    requires RequiresReview(m) && Decided(Some(wanted))
    ensures Reached(trace, s, true) && At(s, AWAITING_ROW, Advance(m, PausedAt(m), wanted), map[])
  {
    trace, s := FirstReturns(m, true);
    trace, s := CommitPaused(trace, s, true, 0, PausedAt(m), map[0 := Returned(PausedAt(m))]);
    trace, s := BeginReview(trace, s, true, wanted, PausedAt(m), map[]);
    trace, s := AnswerPaused(m, trace, s, true, wanted, PausedAt(m), map[]);
    trace, s := Step(trace, s, true, ReviewCrash);
  }

  lemma CommitPaused(trace: seq<Event>, s: Run, alone: bool, t: nat, paused: Checkpoint, tasks: map<nat, Attempt>)
    returns (longer: seq<Event>, after: Run)
    requires Reached(trace, s, alone) && At(s, s.row, paused, tasks) && t in tasks && tasks[t] == Returned(paused)
    requires paused.next == ExceptionNode
    ensures Reached(longer, after, alone) && At(after, AWAITING_ROW, paused, tasks - {t})
  {
    longer, after := Step(trace, s, alone, CommitRow(t));
  }

  lemma LastAttemptFails(trace: seq<Event>, s: Run, row: Row, cp: Checkpoint) returns (longer: seq<Event>, after: Run)
    requires Reached(trace, s, true) && At(s, row, cp, map[])
    ensures Reached(longer, after, true) && At(after, FAILED_ROW, cp, map[])
  {
    longer, after := Step(trace, s, true, Spawn(1, false));
    longer, after := Step(longer, after, true, RowFails(1));
    longer, after := Step(longer, after, true, MarkFailed(1));
    assert after.tasks == map[];
  }

  /** The run that loses a decision, one worker at a time: the resume is cut off after the checkpoint
      took the decision, and a redelivery that cannot load its records fails the run on its last
      attempt. From then on the decision is refused. */
  lemma DecisionIsLost(m: MatchResult, wanted: Answer) returns (trace: seq<Event>, s: Run)
    requires RequiresReview(m) && Decided(Some(wanted))
    ensures Reached(trace, s, true) && At(s, FAILED_ROW, Advance(m, PausedAt(m), wanted), map[])
    ensures Lost(s) && CheckpointAnswer(s) == Some(wanted) && Next(s, ReviewBegin(wanted)) == s
  {
    trace, s := CutOff(m, wanted);
    trace, s := LastAttemptFails(trace, s, AWAITING_ROW, Advance(m, PausedAt(m), wanted));
  }

  lemma RestOfGraph(m: MatchResult, wanted: Answer)
    returns (answered: Checkpoint, completing: Checkpoint, done: Checkpoint)
    requires RequiresReview(m) && Decided(Some(wanted))
    ensures answered == Advance(m, PausedAt(m), wanted) && answered.next in {ApproveNode, RejectNode}
    ensures completing == Advance(m, answered, Approved) && completing.next == CompleteNode
    ensures done == Advance(m, completing, Approved) && done.next == EndNode
    ensures RowOf(done.values) == DecisionRow(wanted) && done.values.answer == Some(wanted)
  {
    PathIsPath(m);
    assert PathOf(m).cps[3].values.iterations == 3;
    answered := Advance(m, PausedAt(m), wanted);
    completing := Advance(m, answered, Approved);
    done := Advance(m, completing, Approved);
  }

  /** A replay drives an answered run to its end and commits it. */
  lemma ReplayFinishes(m: MatchResult, trace: seq<Event>, s: Run, answered: Checkpoint, completing: Checkpoint,
                       done: Checkpoint)
    returns (longer: seq<Event>, after: Run)
    requires Reached(trace, s, true) && At(s, FAILED_ROW, answered, map[]) && answered.next !in {ExceptionNode, EndNode}
    requires completing == Advance(m, answered, Approved) && completing.next == CompleteNode
    requires done == Advance(m, completing, Approved) && done.next == EndNode
    ensures Reached(longer, after, true) && At(after, RowOf(done.values), done, map[])
  {
    longer, after := OpenDelivery(trace, s, true, 2, true);
    longer, after := DriveNode(longer, after, true, 2, m);
    longer, after := DriveNode(longer, after, true, 2, m);
    longer, after := Step(longer, after, true, CommitRow(2));
    assert after.tasks == map[];
  }

  /** And a replay then carries it out all the same: the row ends approved or rejected, no decision is
      recorded, and every further one is refused. */
  lemma UnrecordedDecisionPosts(m: MatchResult, wanted: Answer) returns (trace: seq<Event>, s: Run)
    requires RequiresReview(m) && Decided(Some(wanted))
    ensures Reached(trace, s, true) && s.row == DecisionRow(wanted) && s.decision.None? && s.tasks == map[]
    ensures CheckpointAnswer(s) == Some(wanted) && Unrecorded(s)
    ensures forall a :: Next(s, ReviewBegin(a)) == s
  {
    var answered, completing, done := RestOfGraph(m, wanted);
    trace, s := DecisionIsLost(m, wanted);
    trace, s := ReplayFinishes(m, trace, s, answered, completing, done);
  }

  /** Two overlapping deliveries at the interrupt, of which the second has committed its row. */
  lemma SecondCommits(m: MatchResult) returns (trace: seq<Event>, s: Run)
    requires RequiresReview(m)
    ensures Reached(trace, s, false) && PausedAt(m).next == ExceptionNode && PausedAt(m).values.answer.None?
    ensures At(s, AWAITING_ROW, PausedAt(m), map[0 := Returned(PausedAt(m))])
  {
    trace, s := FirstReturns(m, false);
    trace, s := OpenDelivery(trace, s, false, 1, false);
    trace, s := PauseNode(trace, s, false, 1, m);
    trace, s := CommitPaused(trace, s, false, 1, PausedAt(m), s.tasks);
    assert s.tasks == map[0 := Returned(PausedAt(m))];
  }

  lemma CommitReview(trace: seq<Event>, s: Run, alone: bool, wanted: Answer, done: Checkpoint, tasks: map<nat, Attempt>)
    returns (longer: seq<Event>, after: Run)
    requires Reached(trace, s, alone) && Reviewing(s, wanted, done, false, tasks)
    requires done.next == EndNode && done.values.answer == Some(wanted)
    ensures Reached(longer, after, alone) && after.decision == Some(wanted) && after.row == DecisionRow(wanted)
    ensures after.tasks == tasks && after.reviewer.Idle?
  {
    var stepped: Run;
    longer, stepped := Step(trace, s, alone, ReviewStep(MatchResult(None, [], [])));
    assert stepped.reviewer == Deciding(wanted) && stepped.tasks == tasks;
    longer, after := Step(longer, stepped, alone, ReviewCommit);
  }

  /** The reviewer's whole resume and commit. */
  lemma Decide(m: MatchResult, wanted: Answer, trace: seq<Event>, s: Run, tasks: map<nat, Attempt>)
    returns (longer: seq<Event>, after: Run)
    requires RequiresReview(m) && Decided(Some(wanted)) && PausedAt(m).next == ExceptionNode
    requires PausedAt(m).values.answer.None?
    requires Reached(trace, s, false) && At(s, AWAITING_ROW, PausedAt(m), tasks)
    ensures Reached(longer, after, false) && after.decision == Some(wanted) && after.row == DecisionRow(wanted)
    ensures after.tasks == tasks && after.reviewer.Idle?
  {
    var answered, completing, done := RestOfGraph(m, wanted);
    longer, after := BeginReview(trace, s, false, wanted, PausedAt(m), tasks);
    longer, after := AnswerPaused(m, longer, after, false, wanted, PausedAt(m), tasks);
    longer, after := ReviewNode(m, longer, after, false, wanted, answered, tasks);
    longer, after := ReviewNode(m, longer, after, false, wanted, completing, tasks);
    longer, after := CommitReview(longer, after, false, wanted, done, tasks);
  }

  /** Why one worker per run: with two overlapping ones, the stale commit of the first turns a decided
      row back into an awaiting one, and no failure handler is involved. */
  lemma StaleCommitUndecidesRow(m: MatchResult, wanted: Answer) returns (trace: seq<Event>, s: Run)
    requires RequiresReview(m) && Decided(Some(wanted))
    ensures Reached(trace, s, false) && s.decision == Some(wanted) && s.row == AWAITING_ROW
  {
    trace, s := SecondCommits(m);
    trace, s := Decide(m, wanted, trace, s, s.tasks);
    trace, s := Step(trace, s, false, CommitRow(0));
  }
}
