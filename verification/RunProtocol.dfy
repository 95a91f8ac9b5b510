/** One run across its two stores: worker attempts and reviewers writing checkpoints and the run
    row, in any interleaving, with a crash possible after every write. */
module RunProtocol {
  import opened Options
  import opened Reconciliation
  import opened WorkflowGraph

  datatype Row = Row(status: Label, processing: Processing, posting: Posting)

  function RowOf(v: Values): Row {
    Row(v.status, v.processing, v.posting)
  }

  const NEW_ROW := Row(LabelRunning, Running, NotReady)
  const RETRYING_ROW := Row(LabelRetrying, Retrying, NotReady)
  const AWAITING_ROW := Row(LabelAwaiting, AwaitingReview, NotReady)
  const FAILED_ROW := Row(LabelFailed, RunFailed, NotReady)

  function DecisionRow(decision: Answer): Row {
    var (status, processing, posting) := DecisionState(decision);
    Row(status, processing, posting)
  }

  // ------------------------------------------------------------------ audit events

  datatype AuditEvent =
    | AuditExtracted
    | AuditTriaged
    | AuditExceptionRaised
    | AuditCompleted
    | AuditFailed
    | AuditApproved
    | AuditRejected

  /** Insert unless the run already has a row for the event type. */
  function Logged(audit: seq<AuditEvent>, e: AuditEvent): seq<AuditEvent> {
    if e in audit then audit else audit + [e]
  }

  function NodeAudit(audit: seq<AuditEvent>, cp: Checkpoint): seq<AuditEvent> {
    match cp.next
    case ExtractNode => Logged(audit, AuditExtracted)
    case SupervisorNode => Logged(audit, AuditTriaged)
    case ExceptionNode => Logged(audit, AuditExceptionRaised)
    case CompleteNode =>
      if cp.values.reason != [] && !Decided(cp.values.answer) then Logged(audit, AuditFailed)
      else if Decided(cp.values.answer) then audit
      else Logged(audit, AuditCompleted)
    case _ => audit
  }

  function DecisionAudit(decision: Answer): AuditEvent {
    if decision == Approved then AuditApproved else AuditRejected
  }

  // ------------------------------------------------------------------- the machine

  /** Where one delivery of the job has got to. `local` is the checkpoint in memory. */
  datatype Attempt =
    | Loading(replay: bool)
    | Admitted(replay: bool)     // past the first look at the row
    | Opening
    | Driving(local: Checkpoint)
    | Effected(local: Checkpoint)
    | Returned(local: Checkpoint)
    | Thrown
    | Failing

  /** A reviewer holds the row lock from reading the row until commit or rollback. */
  datatype Reviewer =
    | Idle
    | Resuming(wanted: Answer, local: Checkpoint, pending: bool)
    | Deciding(wanted: Answer)

  datatype Run = Run(
    row: Row,
    cp: Option<Checkpoint>,
    decision: Option<Answer>,
    audit: seq<AuditEvent>,
    tasks: map<nat, Attempt>,
    reviewer: Reviewer,
    answered: set<Answer>,       // every answer a checkpoint was ever written with
    found: set<MatchResult>)     // everything a match checkpoint of this run ever found

  const START := Run(NEW_ROW, None, None, [], map[], Idle, {}, {})

  /** `found` is what matching finds if the checkpoint written is the match node's. */
  datatype Event =
    | Spawn(t: nat, replay: bool)
    | RowFails(t: nat)         // the session reading or committing the row raises
    | Load(t: nat)
    | Reset(t: nat)
    | Open(t: nat)
    | WriteEffect(t: nat)
    | WriteCheckpoint(t: nat, found: MatchResult)
    | Throw(t: nat)
    | PersistRetrying(t: nat)
    | CommitRow(t: nat)
    | MarkFailed(t: nat)
    | GiveUp(t: nat)
    | Crash(t: nat)
    | ReviewBegin(wanted: Answer)
    | ReviewStep(found: MatchResult)
    | ReviewCommit
    | ReviewCrash

  predicate IsReview(e: Event) {
    e.ReviewBegin? || e.ReviewStep? || e.ReviewCommit? || e.ReviewCrash?
  }

  function FoundBy(found: set<MatchResult>, cp: Checkpoint, m: MatchResult): set<MatchResult> {
    if cp.next == MatchNode then found + {m} else found
  }

  /** The worker's part. Writing the row waits for the row lock. */
  function WorkerStep(s: Run, e: Event, t: nat, a: Attempt): Run
  {
    match (e, a)
    case (RowFails(_), Loading(_)) => s.(tasks := s.tasks[t := Failing])
    case (RowFails(_), Admitted(_)) => s.(tasks := s.tasks[t := Failing])
    case (RowFails(_), Thrown) => s.(tasks := s.tasks[t := Failing])
    case (RowFails(_), Returned(_)) => s.(tasks := s.tasks[t := Failing])
    case (Load(_), Loading(replay)) =>
      if s.row.processing == RunFailed && !replay then s.(tasks := s.tasks[t := Failing])
      else if s.row.processing == Complete || s.row.processing == AwaitingReview then s.(tasks := s.tasks - {t})
      else s.(tasks := s.tasks[t := Admitted(replay)])
    case (Reset(_), Admitted(replay)) =>
      if !replay || s.row.processing != RunFailed then s.(tasks := s.tasks[t := Opening])
      else if s.reviewer.Idle? then s.(row := RETRYING_ROW, tasks := s.tasks[t := Opening])
      else s
    case (Open(_), Opening) =>
      if s.cp.None? then s.(cp := Some(Initial(0)), tasks := s.tasks[t := Driving(Initial(0))])
      else if s.cp.value.next == EndNode then s.(tasks := s.tasks[t := Returned(s.cp.value)])
      else s.(tasks := s.tasks[t := Driving(s.cp.value)])
    case (WriteEffect(_), Driving(local)) =>
      s.(audit := NodeAudit(s.audit, local), tasks := s.tasks[t := Effected(local)])
    case (WriteCheckpoint(_, found), Effected(local)) =>
      if local.next == ExceptionNode then s.(tasks := s.tasks[t := Returned(local)])
      else
        var after := Advance(found, local, Approved);
        s.(cp := Some(after), found := FoundBy(s.found, local, found),
           tasks := s.tasks[t := if after.next == EndNode then Returned(after) else Driving(after)])
    case (Throw(_), Opening) => s.(tasks := s.tasks[t := Thrown])
    case (Throw(_), Driving(_)) => s.(tasks := s.tasks[t := Thrown])
    case (Throw(_), Effected(_)) => s.(tasks := s.tasks[t := Thrown])
    case (PersistRetrying(_), Thrown) =>
      if s.reviewer.Idle? then s.(row := RETRYING_ROW, tasks := s.tasks[t := Failing]) else s
    case (CommitRow(_), Returned(local)) =>
      if s.reviewer.Idle?
      then s.(row := if local.next == EndNode then RowOf(local.values) else AWAITING_ROW, tasks := s.tasks - {t})
      else s
    case (MarkFailed(_), Failing) =>
      if s.reviewer.Idle? then s.(row := FAILED_ROW, tasks := s.tasks - {t}) else s
    case (GiveUp(_), Failing) => s.(tasks := s.tasks - {t})
    case (Crash(_), _) => s.(tasks := s.tasks - {t})
    case _ => s
  }

  function AnsweredBy(answered: set<Answer>, cp: Checkpoint, wanted: Answer): set<Answer> {
    if cp.next == ExceptionNode then answered + {wanted} else answered
  }

  function ReviewerStep(s: Run, e: Event): Run {
    match (e, s.reviewer)
    case (ReviewBegin(wanted), Idle) =>
      if !Decided(Some(wanted)) || s.decision.Some? || s.row.processing != AwaitingReview || s.cp.None? then s
      else if Decided(s.cp.value.values.answer) then
        if s.cp.value.values.answer == Some(wanted) then s.(reviewer := Deciding(wanted)) else s
      else if s.cp.value.next == EndNode then s
      else s.(reviewer := Resuming(wanted, s.cp.value, true))
    case (ReviewStep(found), Resuming(wanted, local, pending)) =>
      if local.next == EndNode then
        s.(reviewer := if local.values.answer == Some(wanted) then Deciding(wanted) else Idle)
      else if local.next == ExceptionNode && !pending then s.(reviewer := Idle)
      else
        var after := Advance(found, local, wanted);
        s.(cp := Some(after), audit := NodeAudit(s.audit, local),
           answered := AnsweredBy(s.answered, local, wanted), found := FoundBy(s.found, local, found),
           reviewer := Resuming(wanted, after, pending && local.next != ExceptionNode))
    case (ReviewCommit, Deciding(wanted)) =>
      s.(decision := Some(wanted), row := DecisionRow(wanted),
         audit := Logged(s.audit, DecisionAudit(wanted)), reviewer := Idle)
    case (ReviewCrash, _) => s.(reviewer := Idle)
    case _ => s
  }

  /** One event; an event that is not possible changes nothing. */
  function Next(s: Run, e: Event): Run {
    if IsReview(e) then ReviewerStep(s, e)
    else if e.Spawn? then
      if e.t in s.tasks then s else s.(tasks := s.tasks[e.t := Loading(e.replay)])
    else if e.t in s.tasks then WorkerStep(s, e, e.t, s.tasks[e.t])
    else s
  }

  function After(s: Run, trace: seq<Event>): Run {
    if trace == [] then s
    else Next(After(s, trace[..|trace| - 1]), trace[|trace| - 1])
  }

  // ------------------------------------------- safety with any number of workers

  /** Some match of the run asked for review. */
  predicate ReviewFound(found: set<MatchResult>) {
    exists m :: m in found && RequiresReview(m)
  }

  /** Some match of the run was reconciled and asked nobody. */
  predicate CleanFound(found: set<MatchResult>) {
    exists m :: m in found && CleanResult(m)
  }

  /** A checkpoint carries what some match found, and only an answer that was written before. */
  predicate Sound(answered: set<Answer>, found: set<MatchResult>, cp: Checkpoint) {
    && Regular(cp)
    && (cp.values.result.Some? ==> cp.values.result.value in found)
    && (cp.values.answer.Some? ==> cp.values.answer.value in answered)
  }

  predicate AttemptSound(answered: set<Answer>, found: set<MatchResult>, a: Attempt) {
    match a
    case Driving(local) => Sound(answered, found, local) && local.next != EndNode
    case Effected(local) => Sound(answered, found, local) && local.next != EndNode
    case Returned(local) => Sound(answered, found, local) && local.next in {EndNode, ExceptionNode}
    case _ => true
  }

  predicate ReviewerSound(answered: set<Answer>, found: set<MatchResult>, r: Reviewer) {
    match r
    case Idle => true
    case Resuming(wanted, local, pending) => Decided(Some(wanted)) && Sound(answered, found, local)
    case Deciding(wanted) => Decided(Some(wanted)) && wanted in answered
  }

  /** A row is ready only with an approval or a clean match behind it, blocked only with a
      rejection, and awaits review only with a match that asked for it. */
  predicate RowSound(answered: set<Answer>, found: set<MatchResult>, row: Row) {
    && (row.posting == ReadyForPosting ==> Approved in answered || CleanFound(found))
    && (row.posting == Blocked ==> Rejected in answered)
    && (row.processing == AwaitingReview ==> ReviewFound(found))
  }

  predicate AllSound(s: Run) {
    && (s.cp.Some? ==> Sound(s.answered, s.found, s.cp.value))
    && (forall t :: t in s.tasks ==> AttemptSound(s.answered, s.found, s.tasks[t]))
    && ReviewerSound(s.answered, s.found, s.reviewer)
    && RowSound(s.answered, s.found, s.row)
    && (s.answered != {} ==> ReviewFound(s.found))
  }

  lemma SoundAdvance(answered: set<Answer>, found: set<MatchResult>, cp: Checkpoint, m: MatchResult, answer: Answer,
                     after: Checkpoint)
    requires Sound(answered, found, cp) && after == Advance(m, cp, answer) && Decided(Some(answer))
    ensures Sound(AnsweredBy(answered, cp, answer), FoundBy(found, cp, m), after)
    ensures cp.next == ExceptionNode ==> ReviewFound(found)
  {
    AdvanceRegular(m, cp, answer, after);
    if cp.next == ExceptionNode {
      assert OwnMatch(cp) in found;
    }
  }

  lemma SoundRow(answered: set<Answer>, found: set<MatchResult>, cp: Checkpoint)
    requires Sound(answered, found, cp)
    ensures cp.next == EndNode ==> RowSound(answered, found, RowOf(cp.values))
    ensures cp.next == ExceptionNode ==> RowSound(answered, found, AWAITING_ROW)
  {
    if cp.next == EndNode {
      NormalEnd(OwnMatch(cp), cp);
    }
    assert cp.next == EndNode || cp.next == ExceptionNode ==> OwnMatch(cp) in found;
  }

  lemma MoreFound(answered: set<Answer>, found: set<MatchResult>, more: set<Answer>, further: set<MatchResult>)
    requires answered <= more && found <= further
    ensures ReviewFound(found) ==> ReviewFound(further)
    ensures CleanFound(found) ==> CleanFound(further)
    ensures forall row: Row :: RowSound(answered, found, row) ==> RowSound(more, further, row)
  {
    if ReviewFound(found) {
      var m :| m in found && RequiresReview(m);
      assert m in further;
    }
    if CleanFound(found) {
      var m :| m in found && CleanResult(m);
      assert m in further;
    }
  }

  lemma TaskSound(s: Run, t: nat, a: Attempt)
    requires AllSound(s) && AttemptSound(s.answered, s.found, a)
    ensures AllSound(s.(tasks := s.tasks[t := a]))
    ensures AllSound(s.(tasks := s.tasks - {t}))
  {
  }

  /** A checkpoint written by whoever drives the graph keeps everything else sound. */
  lemma CheckpointSound(s: Run, cp: Checkpoint, m: MatchResult, answer: Answer, after: Run)
    requires AllSound(s) && Sound(s.answered, s.found, cp) && Decided(Some(answer))
    requires after == s.(cp := Some(Advance(m, cp, answer)), answered := AnsweredBy(s.answered, cp, answer),
                         found := FoundBy(s.found, cp, m))
    ensures AllSound(after) && Sound(after.answered, after.found, after.cp.value)
  {
    SoundAdvance(s.answered, s.found, cp, m, answer, after.cp.value);
    MoreFound(s.answered, s.found, after.answered, after.found);
    forall t | t in after.tasks ensures AttemptSound(after.answered, after.found, after.tasks[t]) {
      assert AttemptSound(s.answered, s.found, s.tasks[t]);
    }
  }

  lemma WriteSound(s: Run, e: Event, t: nat, a: Attempt, after: Run)
    requires AllSound(s) && t in s.tasks && s.tasks[t] == a && AttemptSound(s.answered, s.found, a)
    requires e.WriteCheckpoint? && a.Effected? && a.local.next != ExceptionNode && after == WorkerStep(s, e, t, a)
    ensures AllSound(after)
  {
    var written := s.(cp := after.cp, found := after.found);
    assert AnsweredBy(s.answered, a.local, Approved) == s.answered;
    CheckpointSound(s, a.local, e.found, Approved, written);
    TaskSound(written, t, after.tasks[t]);
    assert after == written.(tasks := written.tasks[t := after.tasks[t]]);
  }

  lemma CommitSound(s: Run, t: nat, a: Attempt, after: Run)
    requires AllSound(s) && t in s.tasks && s.tasks[t] == a && AttemptSound(s.answered, s.found, a)
    requires a.Returned? && after == WorkerStep(s, CommitRow(t), t, a)
    ensures AllSound(after)
  {
    SoundRow(s.answered, s.found, a.local);
    TaskSound(s, t, Failing);
  }

  lemma OtherStepSound(s: Run, e: Event, t: nat, a: Attempt, after: Run)
    requires AllSound(s) && t in s.tasks && s.tasks[t] == a && AttemptSound(s.answered, s.found, a)
    requires !(e.WriteCheckpoint? && a.Effected? && a.local.next != ExceptionNode) && !(e.CommitRow? && a.Returned?)
    requires after == WorkerStep(s, e, t, a)
    ensures AllSound(after)
  {
    if t in after.tasks {
      assert AttemptSound(s.answered, s.found, after.tasks[t]);
      TaskSound(s, t, after.tasks[t]);
    } else {
      TaskSound(s, t, Failing);
    }
  }

  lemma WorkerStepSound(s: Run, e: Event, t: nat, after: Run)
    requires AllSound(s) && t in s.tasks && after == WorkerStep(s, e, t, s.tasks[t])
    ensures AllSound(after)
  {
    var a := s.tasks[t];
    assert AttemptSound(s.answered, s.found, a);
    if e.WriteCheckpoint? && a.Effected? && a.local.next != ExceptionNode {
      WriteSound(s, e, t, a, after);
    } else if e.CommitRow? && a.Returned? {
      CommitSound(s, t, a, after);
    } else {
      OtherStepSound(s, e, t, a, after);
    }
  }

  lemma ReviewerStepSound(s: Run, e: Event, after: Run)
    requires AllSound(s) && after == ReviewerStep(s, e)
    ensures AllSound(after)
  {
    if s.reviewer.Resuming? && e.ReviewStep? && after.reviewer.Resuming? {
      var r := s.reviewer;
      CheckpointSound(s, r.local, e.found, r.wanted,
                      s.(cp := after.cp, answered := after.answered, found := after.found));
    }
  }

  lemma StepSound(s: Run, e: Event, after: Run)
    requires AllSound(s) && after == Next(s, e)
    ensures AllSound(after)
  {
    if IsReview(e) {
      ReviewerStepSound(s, e, after);
    } else if !e.Spawn? && e.t in s.tasks {
      WorkerStepSound(s, e, e.t, after);
    }
  }

  lemma {:induction false} EveryRunSound(trace: seq<Event>) returns (s: Run)
    ensures s == After(START, trace)
    ensures AllSound(s)
    decreases |trace|
  {
    s := After(START, trace);
    if trace != [] {
      var e := trace[|trace| - 1];
      var before := EveryRunSound(trace[..|trace| - 1]);
      StepSound(before, e, s);
    }
  }

  predicate Distinct(audit: seq<AuditEvent>) {
    forall i, j :: 0 <= i < j < |audit| ==> audit[i] != audit[j]
  }

  lemma NodeAuditGrows(audit: seq<AuditEvent>, cp: Checkpoint, after: seq<AuditEvent>)
    requires Distinct(audit) && after == NodeAudit(audit, cp)
    ensures Distinct(after) && audit <= after
  {
  }

  lemma StepAudit(s: Run, e: Event, after: Run)
    requires Distinct(s.audit) && after == Next(s, e)
    ensures Distinct(after.audit) && s.audit <= after.audit
  {
    if e.WriteEffect? && e.t in s.tasks && s.tasks[e.t].Driving? {
      NodeAuditGrows(s.audit, s.tasks[e.t].local, after.audit);
    } else if e.ReviewStep? && s.reviewer.Resuming? {
      NodeAuditGrows(s.audit, s.reviewer.local, NodeAudit(s.audit, s.reviewer.local));
    }
  }

  /** Which event each node logs: completion logs the failure exactly when it ends failed, and the
      completion exactly when it ends complete without an approved or rejected answer. The decision's
      own events are no node's. */
  lemma NodeLogs(m: MatchResult, cp: Checkpoint, audit: seq<AuditEvent>, answer: Answer, after: Checkpoint,
                 e: AuditEvent)
    requires after == Advance(m, cp, answer) && e !in audit
    ensures NodeAudit(audit, cp) == audit || exists x :: NodeAudit(audit, cp) == audit + [x]
    ensures e in NodeAudit(audit, cp) <==>
              || (e == AuditExtracted && cp.next == ExtractNode)
              || (e == AuditTriaged && cp.next == SupervisorNode)
              || (e == AuditExceptionRaised && cp.next == ExceptionNode)
              || (e == AuditFailed && cp.next == CompleteNode && after.values.processing == RunFailed)
              || (e == AuditCompleted && cp.next == CompleteNode && after.values.processing == Complete
                    && after.values.answer != Some(Approved) && after.values.answer != Some(Rejected))
  {
    if cp.next == ExtractNode {
      assert Logged(audit, AuditExtracted) == audit || Logged(audit, AuditExtracted) == audit + [AuditExtracted];
    }
  }

  /** The audit rows a graph run logs on its way to the end. */
  function RunAudit(m: MatchResult, cp: Checkpoint, answers: int -> Answer, audit: seq<AuditEvent>): seq<AuditEvent>
    decreases StepsLeft(cp.next, cp.values.iterations)
  {
    if cp.next == EndNode then audit
    else RunAudit(m, Advance(m, cp, answers(cp.values.iterations)), answers, NodeAudit(audit, cp))
  }

  /** Over every graph run, from any checkpoint and for any answers: the failure is logged exactly when
      the run ends failed, and the completion exactly when it ends complete undecided. */
  lemma {:induction false} RunLogs(m: MatchResult, cp: Checkpoint, answers: int -> Answer, audit: seq<AuditEvent>)
    requires cp.next != EndNode && AuditFailed !in audit && AuditCompleted !in audit
    ensures var v, logged := RunGraph(m, cp, answers).0.values, RunAudit(m, cp, answers, audit);
            && (AuditFailed in logged <==> v.processing == RunFailed)
            && (AuditCompleted in logged <==>
                  v.processing == Complete && v.answer != Some(Approved) && v.answer != Some(Rejected))
    decreases StepsLeft(cp.next, cp.values.iterations)
  {
    var answer := answers(cp.values.iterations);
    var after := Advance(m, cp, answer);
    NodeLogs(m, cp, audit, answer, after, AuditFailed);
    NodeLogs(m, cp, audit, answer, after, AuditCompleted);
    if after.next == EndNode {
      assert RunGraph(m, after, answers).0 == after;
    } else {
      RunLogs(m, after, answers, NodeAudit(audit, cp));
    }
  }

  /** The log has an approval exactly when one is recorded, and so a rejection. */
  predicate DecisionLogged(s: Run) {
    && (AuditApproved in s.audit <==> s.decision == Some(Approved))
    && (AuditRejected in s.audit <==> s.decision == Some(Rejected))
  }

  lemma NodeLogsNoDecision(audit: seq<AuditEvent>, cp: Checkpoint, after: seq<AuditEvent>)
    requires after == NodeAudit(audit, cp)
    ensures AuditApproved in after <==> AuditApproved in audit
    ensures AuditRejected in after <==> AuditRejected in audit
  {
  }

  lemma StepLogsDecision(s: Run, e: Event, after: Run)
    requires AllSound(s) && DecisionAnswered(s) && DecisionLogged(s) && after == Next(s, e)
    ensures DecisionLogged(after)
  {
    if e.ReviewCommit? {
      assert s.reviewer.Deciding? ==> s.decision.None?;
    } else if e.WriteEffect? && e.t in s.tasks && s.tasks[e.t].Driving? {
      NodeLogsNoDecision(s.audit, s.tasks[e.t].local, after.audit);
    } else if e.ReviewStep? && s.reviewer.Resuming? {
      NodeLogsNoDecision(s.audit, s.reviewer.local, NodeAudit(s.audit, s.reviewer.local));
    }
  }

  /** Over every run, with any number of overlapping workers: the audit log has an approved row if and
      only if an approval is recorded, and a rejected row if and only if a rejection is. */
  lemma {:induction false} DecisionIsLogged(trace: seq<Event>) returns (s: Run)
    ensures s == After(START, trace)
    ensures AuditApproved in s.audit <==> s.decision == Some(Approved)
    ensures AuditRejected in s.audit <==> s.decision == Some(Rejected)
    decreases |trace|
  {
    s := After(START, trace);
    if trace != [] {
      var n := |trace| - 1;
      var before := DecisionIsLogged(trace[..n]);
      var same := EveryDecisionAnswered(trace[..n]);
      StepLogsDecision(before, trace[n], s);
    }
  }

  /** However many deliveries and reviewers repeat a node, each event type is logged once, and no
      logged event is ever lost. */
  lemma {:induction false} AuditOncePerType(trace: seq<Event>, n: nat) returns (early: Run, late: Run)
    requires n <= |trace|
    ensures early == After(START, trace[..n]) && late == After(START, trace)
    ensures Distinct(early.audit) && Distinct(late.audit) && early.audit <= late.audit
    decreases |trace|
  {
    early, late := After(START, trace[..n]), After(START, trace);
    if trace != [] {
      var k := |trace| - 1;
      var first, last := AuditOncePerType(trace[..k], if n <= k then n else k);
      StepAudit(last, trace[k], late);
      assert n <= k ==> trace[..k][..n] == trace[..n];
      assert n > k ==> trace[..n] == trace;
    }
  }

  // ------------------------------------------------------------------ posting safety

  /** What matching can find: some shipment's evaluation, or no document, or no load. */
  ghost predicate Genuine(m: MatchResult) {
    exists input :: m == Matched(input)
  }

  ghost predicate AllGenuine(trace: seq<Event>) {
    forall i :: 0 <= i < |trace| && (trace[i].WriteCheckpoint? || trace[i].ReviewStep?) ==> Genuine(trace[i].found)
  }

  /** All nine checks passed, and nobody needs to be asked. */
  predicate NineChecksPassed(m: MatchResult) {
    |m.checks| == 9 && AllPassed(m.checks) && !RequiresReview(m)
  }

  lemma GenuineClean(m: MatchResult)
    requires Genuine(m) && CleanResult(m)
    ensures NineChecksPassed(m)
  {
    var input :| m == Matched(input);
    ReconciledMeansClean(input);
  }

  lemma FoundShape(s: Run, e: Event, after: Run)
    requires after == Next(s, e)
    ensures after.found == s.found || ((e.WriteCheckpoint? || e.ReviewStep?) && after.found == s.found + {e.found})
  {
  }

  lemma {:induction false} FoundIsGenuine(trace: seq<Event>) returns (s: Run)
    requires AllGenuine(trace)
    ensures s == After(START, trace) && forall m :: m in s.found ==> Genuine(m)
    decreases |trace|
  {
    s := After(START, trace);
    if trace != [] {
      var n := |trace| - 1;
      var before := FoundIsGenuine(trace[..n]);
      FoundShape(before, trace[n], s);
    }
  }

  /** End-to-end posting safety, for any number of overlapping workers, reviewers, crashes,
      failures and replays, and for matches that find something else each time: a row is ready for
      posting only if a checkpoint was written with a reviewer's approval, or some match of this
      run passed all nine checks and needed no review; it is blocked only if a checkpoint was
      written with a rejection; and it awaits review, or was ever answered, only if some match
      asked for review. */
  lemma PostingSafety(trace: seq<Event>) returns (s: Run)
    requires AllGenuine(trace)
    ensures s == After(START, trace)
    ensures s.row.posting == ReadyForPosting ==>
              Approved in s.answered || exists m :: m in s.found && NineChecksPassed(m)
    ensures s.row.posting == Blocked ==> Rejected in s.answered
    ensures s.row.processing == AwaitingReview || s.answered != {} ==> ReviewFound(s.found)
  {
    s := EveryRunSound(trace);
    var same := FoundIsGenuine(trace);
    if CleanFound(s.found) {
      var m :| m in s.found && CleanResult(m);
      GenuineClean(m);
    }
  }

  /** A run that only ever found overdue or incomplete paperwork stays not ready, and nobody is
      asked about it, through match, complete, worker persist and review, in every run. */
  lemma SlaOnlyNeverPosts(trace: seq<Event>) returns (s: Run)
    requires forall m :: m in After(START, trace).found ==> !RequiresReview(m) && m.recon != Some(Reconciled)
    ensures s == After(START, trace)
    ensures s.row.posting == NotReady && s.row.processing != AwaitingReview && s.answered == {} && s.decision.None?
  {
    s := EveryRunSound(trace);
    var decided := EveryDecisionAnswered(trace);
  }

  predicate DecisionAnswered(s: Run) {
    && (s.decision.Some? ==> s.decision.value in s.answered)
    && (!s.reviewer.Idle? ==> s.decision.None? && s.row.processing == AwaitingReview)
  }

  lemma {:induction false} EveryDecisionAnswered(trace: seq<Event>) returns (s: Run)
    ensures s == After(START, trace) && AllSound(s) && DecisionAnswered(s)
    decreases |trace|
  {
    s := EveryRunSound(trace);
    if trace != [] {
      var before := EveryDecisionAnswered(trace[..|trace| - 1]);
      DecisionStep(before, trace[|trace| - 1], s);
    }
  }

  lemma DecisionStep(s: Run, e: Event, after: Run)
    requires AllSound(s) && DecisionAnswered(s) && after == Next(s, e)
    ensures DecisionAnswered(after)
    ensures s.decision.Some? ==> after.decision == s.decision
  {
  }

  /** A recorded decision never changes and was written to a checkpoint before, for any number of
      overlapping workers. */
  lemma {:induction false} DecisionIsFinal(trace: seq<Event>, n: nat) returns (early: Run, late: Run)
    requires n <= |trace|
    ensures early == After(START, trace[..n]) && late == After(START, trace)
    ensures early.decision.Some? ==> late.decision == early.decision && early.decision.value in early.answered
    decreases |trace|
  {
    early := EveryDecisionAnswered(trace[..n]);
    late := EveryDecisionAnswered(trace);
    if n < |trace| {
      var k := |trace| - 1;
      assert trace[..k][..n] == trace[..n];
      var first, before := DecisionIsFinal(trace[..k], n);
      var sound := EveryDecisionAnswered(trace[..k]);
      DecisionStep(before, trace[k], late);
    } else {
      assert trace[..n] == trace;
    }
  }

  // ------------------------------------ two-store agreement with one worker per run

  predicate InGraph(a: Attempt) {
    a.Opening? || a.Driving? || a.Effected? || a.Returned? || a.Thrown?
  }

  predicate AttemptAgrees(s: Run, a: Attempt) {
    && (InGraph(a) ==>
          && s.reviewer.Idle?
          && (s.row.processing == Running || s.row.processing == Retrying))
    && (a.Admitted? ==> s.row.processing in {Running, Retrying} || (s.row.processing == RunFailed && a.replay))
    && (a.Driving? || a.Effected? || a.Returned? ==> s.cp == Some(a.local))
  }

  predicate ReviewerAgrees(s: Run) {
    && (!s.reviewer.Idle? ==> s.row == AWAITING_ROW && s.decision.None? && s.cp.Some?)
    && (s.reviewer.Resuming? ==>
          && s.cp == Some(s.reviewer.local)
          && (s.reviewer.pending ==> s.reviewer.local.next == ExceptionNode)
          && (!s.reviewer.pending ==> s.reviewer.local.values.answer == Some(s.reviewer.wanted)))
    && (s.reviewer.Deciding? ==> s.cp.value.values.answer == Some(s.reviewer.wanted))
  }

  function CheckpointAnswer(s: Run): Option<Answer> {
    if s.cp.Some? then s.cp.value.values.answer else None
  }

  predicate RowAgrees(s: Run) {
    && (s.row.processing == Running ==> s.row == NEW_ROW)
    && (s.row.processing == Retrying ==> s.row == RETRYING_ROW)
    && (s.row.processing == RunFailed ==> s.row == FAILED_ROW)
    && (s.row.processing == AwaitingReview ==>
          && s.row == AWAITING_ROW && s.decision.None? && s.cp.Some?
          && (s.cp.value.next == ExceptionNode || Decided(CheckpointAnswer(s))))
    && (s.row.processing == Complete ==>
          s.cp.Some? &&
          (if CheckpointAnswer(s).Some? then s.row == DecisionRow(CheckpointAnswer(s).value)
           else s.cp.value.next == EndNode && s.row == RowOf(s.cp.value.values)))
    && (s.decision.Some? ==> CheckpointAnswer(s) == s.decision && s.row.processing != Running)
  }

  predicate OneWorker(s: Run) {
    forall a, b :: a in s.tasks && b in s.tasks ==> a == b
  }

  predicate Agreed(s: Run) {
    && OneWorker(s)
    && (forall t :: t in s.tasks ==> AttemptAgrees(s, s.tasks[t]))
    && ReviewerAgrees(s)
    && RowAgrees(s)
  }

  /** Exclusive leases: a delivery is picked up only when no other one is at work. */
  predicate Exclusive(s: Run, trace: seq<Event>) {
    trace == [] ||
    (var n := |trace| - 1;
     && Exclusive(s, trace[..n])
     && (trace[n].Spawn? ==> After(s, trace[..n]).tasks == map[]))
  }

  /** Nothing a delivery does touches the decision, or the answer once the checkpoint has one. */
  predicate Sticky(s: Run, after: Run) {
    && (s.decision.Some? ==> after.decision == s.decision)
    && (CheckpointAnswer(s).Some? ==> CheckpointAnswer(after) == CheckpointAnswer(s))
  }

  lemma GraphStepAgrees(s: Run, e: Event, t: nat, a: Attempt, after: Run)
    requires Agreed(s) && t in s.tasks && s.tasks[t] == a && InGraph(a) && AttemptAgrees(s, a)
    requires AttemptSound(s.answered, s.found, a)
    requires e.Open? || e.WriteEffect? || e.WriteCheckpoint? || e.Throw?
    requires after == WorkerStep(s, e, t, a)
    ensures Agreed(after) && Sticky(s, after)
  {
    if e.WriteCheckpoint? && a.Effected? && a.local.next != ExceptionNode {
      AdvanceRegular(e.found, a.local, Approved, Advance(e.found, a.local, Approved));
    }
  }

  lemma CommitRowAgrees(s: Run, t: nat, a: Attempt, after: Run)
    requires Agreed(s) && t in s.tasks && s.tasks[t] == a && a.Returned? && AttemptAgrees(s, a)
    requires AttemptSound(s.answered, s.found, a)
    requires after == WorkerStep(s, CommitRow(t), t, a)
    ensures Agreed(after) && Sticky(s, after)
  {
    if a.local.next == EndNode {
      NormalEnd(OwnMatch(a.local), a.local);
    }
  }

  lemma OtherStepAgrees(s: Run, e: Event, t: nat, a: Attempt, after: Run)
    requires Agreed(s) && t in s.tasks && s.tasks[t] == a && AttemptAgrees(s, a)
    requires !(e.Open? || e.WriteEffect? || e.WriteCheckpoint? || e.Throw? || e.CommitRow?)
    requires after == WorkerStep(s, e, t, a)
    ensures Agreed(after) && Sticky(s, after)
  {
  }

  lemma WorkerStepAgrees(s: Run, e: Event, t: nat, after: Run)
    requires AllSound(s) && Agreed(s)
    requires t in s.tasks && after == WorkerStep(s, e, t, s.tasks[t])
    ensures Agreed(after) && Sticky(s, after)
  {
    var a := s.tasks[t];
    assert AttemptAgrees(s, a) && AttemptSound(s.answered, s.found, a);
    if e.Open? || e.WriteEffect? || e.WriteCheckpoint? || e.Throw? {
      if InGraph(a) {
        GraphStepAgrees(s, e, t, a, after);
      } else {
        assert after == s;
      }
    } else if e.CommitRow? {
      if a.Returned? {
        CommitRowAgrees(s, t, a, after);
      } else {
        assert after == s;
      }
    } else {
      OtherStepAgrees(s, e, t, a, after);
    }
  }

  lemma ReviewerStepAgrees(s: Run, e: Event, after: Run)
    requires AllSound(s) && Agreed(s) && after == ReviewerStep(s, e)
    ensures Agreed(after) && Sticky(s, after)
  {
    if s.reviewer.Resuming? && e.ReviewStep? && s.reviewer.local.next != EndNode {
      AdvanceRegular(e.found, s.reviewer.local, s.reviewer.wanted,
                     Advance(e.found, s.reviewer.local, s.reviewer.wanted));
    }
    forall t | t in after.tasks ensures AttemptAgrees(after, after.tasks[t]) {
      assert AttemptAgrees(s, s.tasks[t]);
    }
  }

  lemma StepAgrees(s: Run, e: Event, after: Run)
    requires AllSound(s) && Agreed(s) && after == Next(s, e)
    requires e.Spawn? ==> s.tasks == map[]
    ensures Agreed(after) && Sticky(s, after)
  {
    if IsReview(e) {
      ReviewerStepAgrees(s, e, after);
    } else if !e.Spawn? && e.t in s.tasks {
      WorkerStepAgrees(s, e, e.t, after);
    }
  }

  lemma {:induction false} EveryExclusiveRunAgrees(trace: seq<Event>) returns (s: Run)
    requires Exclusive(START, trace)
    ensures s == After(START, trace)
    ensures AllSound(s) && Agreed(s)
    decreases |trace|
  {
    s := After(START, trace);
    if trace != [] {
      var e := trace[|trace| - 1];
      var before := EveryExclusiveRunAgrees(trace[..|trace| - 1]);
      StepSound(before, e, s);
      StepAgrees(before, e, s);
    }
  }

  /** With one worker per run, over every interleaving of attempts, crashes, failures, replays and
      review calls: a recorded decision is the checkpoint's decision; a run awaiting review has
      none; a complete row shows the checkpoint's decision, or its final values when it has none;
      and an approved or rejected row never disagrees with either store. Whether a complete row's
      decision is recorded too is `Decisions.UnrecordedIff` and `Decisions.LostIffOverwritten`. */
  lemma TwoStoreAgreement(trace: seq<Event>) returns (s: Run)
    requires Exclusive(START, trace)
    ensures s == After(START, trace)
    ensures s.decision.Some? ==> CheckpointAnswer(s) == s.decision && Decided(s.decision)
    ensures s.row.processing == AwaitingReview ==> s.decision.None? && s.row == AWAITING_ROW
    ensures s.row.processing == Complete && CheckpointAnswer(s).Some? ==>
              s.row == DecisionRow(CheckpointAnswer(s).value)
    ensures s.row.processing == Complete && CheckpointAnswer(s).None? ==>
              s.cp.Some? && s.row == RowOf(s.cp.value.values)
    ensures s.row.posting == ReadyForPosting ==>
              || CheckpointAnswer(s) == Some(Approved)
              || (CheckpointAnswer(s).None? && s.cp.Some? && CleanResult(OwnMatch(s.cp.value)))
    ensures s.row.posting == Blocked ==> CheckpointAnswer(s) == Some(Rejected)
    ensures s.decision == Some(Rejected) ==> s.row.posting != ReadyForPosting
    ensures s.decision == Some(Approved) ==> s.row.posting != Blocked
    ensures s.row.status == LabelApproved ==> CheckpointAnswer(s) == Some(Approved)
    ensures s.row.status == LabelRejected ==> CheckpointAnswer(s) == Some(Rejected)
  {
    s := EveryExclusiveRunAgrees(trace);
    if s.row.processing == Complete && CheckpointAnswer(s).None? {
      NormalEnd(OwnMatch(s.cp.value), s.cp.value);
    }
  }

  /** Once the checkpoint holds a decision, it keeps it, and only that decision can be recorded. */
  lemma {:induction false} CheckpointDecides(trace: seq<Event>, n: nat) returns (early: Run, late: Run)
    requires n <= |trace| && Exclusive(START, trace)
    ensures early == After(START, trace[..n]) && late == After(START, trace)
    ensures Sticky(early, late)
    ensures CheckpointAnswer(early).Some? && late.decision.Some? ==> late.decision == CheckpointAnswer(early)
    decreases |trace|
  {
    if n == |trace| {
      assert trace[..n] == trace;
      late := EveryExclusiveRunAgrees(trace);
      return late, late;
    }
    var k := |trace| - 1;
    assert trace[..k][..n] == trace[..n];
    var before: Run;
    early, before := CheckpointDecides(trace[..k], n);
    late := EveryExclusiveRunAgrees(trace);
    var same := EveryExclusiveRunAgrees(trace[..k]);
    StepAgrees(same, trace[k], late);
  }

  lemma AfterOne(s: Run, trace: seq<Event>, e: Event)
    ensures After(s, trace + [e]) == Next(After(s, trace), e)
  {
    assert (trace + [e])[..|trace|] == trace;
  }
}
