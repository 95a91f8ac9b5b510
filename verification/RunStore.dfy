/** The worker and the reviewer as code over the run's stores. Every durable write is noted as an
    event of the run protocol, so that every result about protocol traces is a result about
    these methods. */
module RunStore {
  import opened Options
  import opened Reconciliation
  import opened WorkflowGraph
  import opened RunProtocol
  import opened CrashResume

  /** What the environment does to the next durable step. */
  datatype Fate = Proceeds | Dies | Raises

  datatype JobEnd = Finished | Raised | Died

  datatype ReviewEnd =
    | Recorded
    | AlreadyRecorded
    | DecisionConflict
    | NotAwaitingReview
    | Interrupted

  class Stores {
    var row: Row
    var cp: Option<Checkpoint>
    var decision: Option<Answer>
    var audit: seq<AuditEvent>
    ghost var proto: Run
    ghost var trace: seq<Event>

    constructor ()
      ensures Tracks() && proto == START && trace == []
      ensures row == Row(LabelRunning, Running, NotReady) && cp.None? && decision.None? && audit == []
    {
      row, cp, decision, audit := NEW_ROW, None, None, [];
      proto, trace := START, [];
    }

    /** The stores are what the protocol reaches from the start by the noted events. */
    ghost predicate Tracks()
      reads this
    {
      && proto.row == row && proto.cp == cp && proto.decision == decision && proto.audit == audit
      && proto == After(START, trace)
      && Exclusive(START, trace)
    }

    ghost method Note(e: Event)
      requires proto == After(START, trace) && Exclusive(START, trace)
      requires e.Spawn? ==> proto.tasks == map[]
      modifies this`proto, this`trace
      ensures proto == Next(old(proto), e) && trace == old(trace) + [e]
      ensures proto == After(START, trace) && Exclusive(START, trace)
    {
      AfterOne(START, trace, e);
      assert (trace + [e])[..|trace|] == trace;
      proto, trace := Next(proto, e), trace + [e];
    }

    lemma Facts()
      requires Tracks()
      ensures AllSound(proto) && Agreed(proto)
    {
      var s := EveryExclusiveRunAgrees(trace);
    }

    /** The processing status falls back to the status text, and the posting status to itself. */
    method PersistRunState(status: Label, processing: Option<Processing>, posting: Option<Posting>)
      requires processing.Some? || status in {LabelRunning, LabelRetrying, LabelAwaiting, LabelComplete, LabelFailed}
      modifies this`row
      ensures row.status == status
      ensures processing.Some? ==> row.processing == processing.value
      ensures processing.None? ==>
                || (status == LabelRunning && row.processing == Running)
                || (status == LabelRetrying && row.processing == Retrying)
                || (status == LabelAwaiting && row.processing == AwaitingReview)
                || (status == LabelComplete && row.processing == Complete)
                || (status == LabelFailed && row.processing == RunFailed)
      ensures row.posting == if posting.Some? then posting.value else old(row).posting
    {
      row := row.(status := status);
      row := row.(processing := if processing.Some? then processing.value else AsProcessing(status).value);
      if posting.Some? {
        row := row.(posting := posting.value);
      }
    }

    // ------------------------------------------------------------------- the worker

    /** A crash: the delivery is gone, every store is as it was. */
    ghost method Die(t: nat)
      requires Tracks() && proto.tasks.Keys == {t}
      modifies this`proto, this`trace
      ensures Tracks() && trace == old(trace) + [Crash(t)]
      ensures proto.tasks == map[] && proto.reviewer == old(proto).reviewer
      ensures row == old(row) && cp == old(cp) && decision == old(decision) && audit == old(audit)
    {
      Note(Crash(t));
    }

    /** An exception inside the graph call commits a retrying row and goes to the handler. */
    method Catch(t: nat)
      requires Tracks() && proto.reviewer.Idle? && proto.tasks.Keys == {t}
      requires proto.tasks[t].Opening? || proto.tasks[t].Driving? || proto.tasks[t].Effected?
      modifies this
      ensures Tracks() && trace == old(trace) + [Throw(t), PersistRetrying(t)]
      ensures proto.tasks == map[t := Failing] && proto.reviewer.Idle?
      ensures row == RETRYING_ROW && cp == old(cp) && decision == old(decision) && audit == old(audit)
    {
      ghost var before := trace;
      Note(Throw(t));
      Note(PersistRetrying(t));
      assert trace == before + [Throw(t), PersistRetrying(t)];
      PersistRunState(LabelRetrying, Some(Retrying), Some(NotReady));
    }

    /** The first look at the run row: raise, short-circuit, or go on. */
    method LoadRun(t: nat, replay: bool) returns (admitted: bool)
      requires Tracks() && proto.reviewer.Idle? && proto.tasks == map[t := Loading(replay)]
      modifies this`proto, this`trace
      ensures Tracks() && trace == old(trace) + [Load(t)] && proto.reviewer.Idle?
      ensures admitted <==> row.processing in {Running, Retrying} || (row.processing == RunFailed && replay)
      ensures proto.tasks == if admitted then map[t := Admitted(replay)]
                             else if row.processing == RunFailed then map[t := Failing]
                             else map[]
    {
      Note(Load(t));
      if row.processing == RunFailed && !replay {
        return false;
      }
      admitted := row.processing != Complete && row.processing != AwaitingReview;
    }

    /** The second look, in the session that will commit the row: an operator replay resets a
        failed run. */
    method ResetRun(t: nat, replay: bool)
      requires Tracks() && proto.reviewer.Idle? && proto.tasks == map[t := Admitted(replay)]
      modifies this`row, this`proto, this`trace
      ensures Tracks() && trace == old(trace) + [Reset(t)] && proto.reviewer.Idle?
      ensures row == if replay && old(row).processing == RunFailed then Row(LabelRetrying, Retrying, NotReady)
                     else old(row)
      ensures proto.tasks == map[t := Opening]
    {
      Note(Reset(t));
      if replay && row.processing == RunFailed {
        PersistRunState(LabelRetrying, Some(Retrying), Some(NotReady));
      }
    }

    /** Both looks: the row after them, and whether the delivery ends there. */
    method LookTwice(t: nat, replay: bool) returns (stopped: Option<JobEnd>)
      requires Tracks() && proto.reviewer.Idle? && proto.tasks == map[t := Loading(replay)]
      modifies this`row, this`proto, this`trace
      ensures Tracks() && proto.reviewer.Idle?
      ensures trace == old(trace) + (if stopped.None? then [Load(t), Reset(t)] else [Load(t)])
      ensures stopped == if old(row).processing in {Complete, AwaitingReview} then Some(Finished)
                         else if old(row).processing == RunFailed && !replay then Some(Raised)
                         else None
      ensures row == if stopped.None? && old(row).processing == RunFailed then RETRYING_ROW else old(row)
      ensures proto.tasks == if stopped.None? then map[t := Opening]
                             else if stopped == Some(Raised) then map[t := Failing] else map[]
    {
      ghost var before := trace;
      var admitted := LoadRun(t, replay);
      if admitted {
        ResetRun(t, replay);
        assert trace == before + [Load(t), Reset(t)];
        stopped := None;
      } else {
        stopped := if row.processing == RunFailed then Some(Raised) else Some(Finished);
      }
    }

    ghost method Spawned(t: nat, replay: bool)
      requires Tracks() && proto.tasks == map[] && proto.reviewer.Idle?
      modifies this`proto, this`trace
      ensures Tracks() && trace == old(trace) + [Spawn(t, replay)]
      ensures proto == old(proto).(tasks := map[t := Loading(replay)])
    {
      Note(Spawn(t, replay));
    }

    ghost method RowRaises(t: nat)
      requires Tracks() && proto.tasks.Keys == {t} && (proto.tasks[t].Loading? || proto.tasks[t].Returned?)
      modifies this`proto, this`trace
      ensures Tracks() && trace == old(trace) + [RowFails(t)]
      ensures proto == old(proto).(tasks := map[t := Failing])
    {
      Note(RowFails(t));
    }

    /** The part before the graph: the job's records, and what the run row says about going on. */
    method PickUp(ghost m: MatchResult, t: nat, replay: bool, fate: Fate) returns (stopped: Option<JobEnd>)
      requires Tracks() && proto.tasks == map[] && proto.reviewer.Idle?
      modifies this
      ensures Tracks() && proto.reviewer.Idle? && Extends(m, old(trace), trace)
      ensures cp == old(cp) && decision == old(decision) && audit == old(audit)
      ensures stopped == if fate != Proceeds then Some(Stopped(fate))
                         else if old(row).processing in {Complete, AwaitingReview} then Some(Finished)
                         else if old(row).processing == RunFailed && !replay then Some(Raised)
                         else None
      ensures row == if stopped.None? && old(row).processing == RunFailed then RETRYING_ROW else old(row)
      ensures proto.tasks == match stopped
                             case None => map[t := Opening]
                             case Some(end) => if end == Raised then map[t := Failing] else map[]
    {
      Spawned(t, replay);
      if fate == Dies {
        Die(t);
        return Some(Died);
      }
      if fate == Raises {
        RowRaises(t);
        return Some(Raised);
      }
      stopped := LookTwice(t, replay);
    }

    /** Start the graph from its first checkpoint, or from the one the last delivery left. */
    method OpenGraph(t: nat)
      requires Tracks() && proto.reviewer.Idle? && proto.tasks == map[t := Opening]
      modifies this
      ensures Tracks() && trace == old(trace) + [Open(t)] && proto.reviewer.Idle?
      ensures old(cp).Some? ==> cp == old(cp)
      ensures old(cp).None? ==>
                cp == Some(Checkpoint(Values(None, [], None, LabelRunning, Running, NotReady, 0), ExtractNode))
      ensures row == old(row) && decision == old(decision) && audit == old(audit)
      ensures proto.tasks == map[t := if cp.value.next == EndNode then Returned(cp.value) else Driving(cp.value)]
    {
      Note(Open(t));
      if cp.None? {
        cp := Some(Initial(0));
      }
    }

    /** The next node's own writes, before its checkpoint. */
    method RunNode(t: nat)
      requires Tracks() && proto.reviewer.Idle? && cp.Some? && proto.tasks == map[t := Driving(cp.value)]
      modifies this
      ensures Tracks() && trace == old(trace) + [WriteEffect(t)] && proto.reviewer.Idle?
      ensures audit == NodeAudit(old(audit), cp.value)
      ensures row == old(row) && cp == old(cp) && decision == old(decision)
      ensures proto.tasks == map[t := Effected(cp.value)]
    {
      Note(WriteEffect(t));
      audit := NodeAudit(audit, cp.value);
    }

    /** The node's checkpoint, or the interrupt when it is the review node. */
    method SaveCheckpoint(m: MatchResult, t: nat) returns (paused: bool)
      requires Tracks() && proto.reviewer.Idle? && cp.Some? && proto.tasks == map[t := Effected(cp.value)]
      modifies this
      ensures Tracks() && trace == old(trace) + [WriteCheckpoint(t, m)] && proto.reviewer.Idle?
      ensures paused <==> old(cp).value.next == ExceptionNode
      ensures cp == if paused then old(cp) else Some(Advance(m, old(cp).value, Approved))
      ensures row == old(row) && decision == old(decision) && audit == old(audit)
      ensures proto.tasks ==
                map[t := if paused || cp.value.next == EndNode then Returned(cp.value) else Driving(cp.value)]
    {
      paused := cp.value.next == ExceptionNode;
      Note(WriteCheckpoint(t, m));
      if !paused {
        cp := Some(Advance(m, cp.value, Approved));
      }
    }

    method CommitRun(t: nat, paused: bool)
      requires Tracks() && proto.reviewer.Idle? && cp.Some? && proto.tasks == map[t := Returned(cp.value)]
      requires paused <==> cp.value.next != EndNode
      modifies this
      ensures Tracks() && trace == old(trace) + [CommitRow(t)] && proto.reviewer.Idle?
      ensures proto.tasks == map[] && cp == old(cp) && decision == old(decision) && audit == old(audit)
      ensures row == if paused then Row(LabelAwaiting, AwaitingReview, NotReady)
                     else Row(cp.value.values.status, cp.value.values.processing, cp.value.values.posting)
      ensures row.processing == AwaitingReview || row.processing == Complete
    {
      Facts();
      assert AttemptSound(proto.answered, proto.found, proto.tasks[t]);
      if !paused {
        NormalEnd(OwnMatch(cp.value), cp.value);
      }
      Note(CommitRow(t));
      if paused {
        PersistRunState(LabelAwaiting, Some(AwaitingReview), Some(NotReady));
      } else {
        PersistRunState(cp.value.values.status, Some(cp.value.values.processing), Some(cp.value.values.posting));
      }
    }

    /** A step that does not happen: the process dies before it, or it throws inside the graph. */
    method Stumble(ghost m: MatchResult, t: nat, raises: bool) returns (end: JobEnd)
      requires Tracks() && proto.reviewer.Idle? && proto.tasks.Keys == {t}
      requires raises ==> proto.tasks[t].Opening? || proto.tasks[t].Driving? || proto.tasks[t].Effected?
      modifies this
      ensures Tracks() && proto.reviewer.Idle? && Extends(m, old(trace), trace)
      ensures end == if raises then Raised else Died
      ensures proto.tasks == if raises then map[t := Failing] else map[]
      ensures row == if raises then RETRYING_ROW else old(row)
      ensures cp == old(cp) && decision == old(decision) && audit == old(audit)
    {
      if raises {
        Catch(t);
        end := Raised;
      } else {
        Die(t);
        end := Died;
      }
    }

    /** One node: its own writes, then its checkpoint, with a chance to stop before each. */
    method Superstep(m: MatchResult, t: nat, first: Fate, second: Fate) returns (end: Option<JobEnd>, paused: bool)
      requires Tracks() && proto.reviewer.Idle? && cp.Some? && proto.tasks == map[t := Driving(cp.value)]
      modifies this
      ensures Tracks() && proto.reviewer.Idle? && decision == old(decision) && Extends(m, old(trace), trace)
      ensures end == if first != Proceeds then Some(Stopped(first))
                     else if second != Proceeds then Some(Stopped(second))
                     else None
      ensures end.Some? ==> cp == old(cp) && proto.tasks == if end.value == Raised then map[t := Failing] else map[]
      ensures end.None? ==>
                && (paused <==> old(cp).value.next == ExceptionNode)
                && cp == (if paused then old(cp) else Some(Advance(m, old(cp).value, Approved)))
                && proto.tasks ==
                     map[t := if paused || cp.value.next == EndNode then Returned(cp.value) else Driving(cp.value)]
    {
      paused := false;
      if first != Proceeds {
        var stop := Stumble(m, t, first == Raises);
        return Some(stop), false;
      }
      RunNode(t);
      if second != Proceeds {
        var stop := Stumble(m, t, second == Raises);
        return Some(stop), false;
      }
      paused := SaveCheckpoint(m, t);
      end := None;
    }

    /** The graph call: from the first or last checkpoint to the end or the interrupt. */
    method InvokeGraph(m: MatchResult, t: nat, fate: nat -> Fate) returns (end: Option<JobEnd>, paused: bool)
      requires Tracks() && proto.reviewer.Idle? && proto.tasks == map[t := Opening]
      modifies this
      ensures Tracks() && proto.reviewer.Idle? && decision == old(decision) && Extends(m, old(trace), trace)
      ensures end.Some? ==>
                && end.value != Finished
                && proto.tasks == if end.value == Raised then map[t := Failing] else map[]
      ensures end.None? ==>
                && cp.Some? && proto.tasks == map[t := Returned(cp.value)]
                && (paused <==> cp.value.next != EndNode)
      ensures (forall k :: fate(k) == Proceeds) ==> end.None?
    {
      OpenGraph(t);
      paused := false;
      end := None;
      var k := 3;
      while end.None? && cp.value.next != EndNode && !paused
        invariant Tracks() && proto.reviewer.Idle? && decision == old(decision) && Extends(m, old(trace), trace)
        invariant end.None? ==> cp.Some? && (paused ==> cp.value.next == ExceptionNode)
        invariant end.None? ==>
                    proto.tasks == map[t := if paused || cp.value.next == EndNode then Returned(cp.value)
                                            else Driving(cp.value)]
        invariant end.Some? ==>
                    && end.value != Finished
                    && proto.tasks == if end.value == Raised then map[t := Failing] else map[]
        invariant (forall j :: fate(j) == Proceeds) ==> end.None?
        decreases end.None?, if end.None? then StepsLeft(cp.value.next, cp.value.values.iterations) else 0, !paused
      {
        ghost var before := trace;
        end, paused := Superstep(m, t, fate(k), fate(k + 1));
        ExtendsFurther(m, old(trace), before, trace);
        k := k + 2;
      }
    }

    /** A settled run nobody has reviewed is where an undisturbed delivery ends. */
    lemma SettledIsReference(m: MatchResult)
      requires Tracks() && NoReview(trace) && AlwaysFinds(m, trace)
      ensures Settled(proto) ==>
                row == FinalRow(PathOf(m)) && cp == Some(PathOf(m).cps[3]) && audit == PathOf(m).audits[4]
    {
      PathIsPath(m);
      var s := DisturbedRunsResumable(m, PathOf(m), trace);
    }

    /** One delivery of the job up to its return, exception or crash. `fate(0)` is what happens to
        the row read, `fate(1)` to opening the graph, `fate(2)` to the row commit, and the rest to
        the nodes' writes in order. A finished delivery leaves a settled row to acknowledge, whatever earlier
        deliveries left behind: before any review, the row, checkpoint and audit rows of one
        undisturbed delivery. A raised one leaves its failure handler, a crashed one nothing but
        what it had already written, and an undisturbed one always finishes. */
    method RunWorkflowForJob(m: MatchResult, t: nat, replay: bool, fate: nat -> Fate) returns (end: JobEnd)
      requires Tracks() && proto.tasks == map[] && proto.reviewer.Idle?
      modifies this
      ensures Tracks() && proto.reviewer.Idle? && decision == old(decision) && Extends(m, old(trace), trace)
      ensures proto.tasks == if end == Raised then map[t := Failing] else map[]
      ensures end == Finished ==> row.processing == Complete || row.processing == AwaitingReview
      ensures end == Finished && NoReview(old(trace)) && AlwaysFinds(m, old(trace)) ==>
                && cp == Some(PathOf(m).cps[3])
                && row == (if RequiresReview(m) then Row(LabelAwaiting, AwaitingReview, NotReady)
                           else Row(LabelComplete, Complete,
                                    if m.recon == Some(Reconciled) then ReadyForPosting else NotReady))
                && audit == (if RequiresReview(m) then [AuditExtracted, AuditTriaged, AuditExceptionRaised]
                             else [AuditExtracted, AuditCompleted])
      ensures fate(0) != Proceeds ==> end == Stopped(fate(0)) && row == old(row) && cp == old(cp)
      ensures (forall k :: fate(k) == Proceeds) ==> (end == Finished <==> old(row).processing != RunFailed || replay)
      ensures old(row).processing == RunFailed && !replay ==> end != Finished && row == old(row) && cp == old(cp)
      ensures old(row).processing in {Complete, AwaitingReview} ==>
                row == old(row) && cp == old(cp) && audit == old(audit)
    {
      ghost var start := trace;
      var stopped := PickUp(m, t, replay, fate(0));
      if stopped.Some? {
        end := stopped.value;
      } else {
        ghost var loaded := trace;
        end := RunLoaded(m, t, fate);
        ExtendsFurther(m, start, loaded, trace);
      }
      if end == Finished && NoReview(start) && AlwaysFinds(m, start) {
        SettledIsReference(m);
        FinalRowMeaning(m);
        PathAudit(m);
      }
    }

    method RunLoaded(m: MatchResult, t: nat, fate: nat -> Fate) returns (end: JobEnd)
      requires Tracks() && proto.tasks == map[t := Opening] && proto.reviewer.Idle?
      modifies this
      ensures Tracks() && proto.reviewer.Idle? && decision == old(decision) && Extends(m, old(trace), trace)
      ensures proto.tasks == if end == Raised then map[t := Failing] else map[]
      ensures end == Finished ==> row.processing == Complete || row.processing == AwaitingReview
      ensures (forall k :: fate(k) == Proceeds) ==> end == Finished
    {
      if fate(1) != Proceeds {
        end := Stumble(m, t, fate(1) == Raises);
        return;
      }
      var stopped, paused := InvokeGraph(m, t, fate);
      if stopped.Some? {
        return stopped.value;
      }
      ghost var middle := trace;
      if fate(2) == Dies {
        Die(t);
        end := Died;
      } else if fate(2) == Raises {
        RowRaises(t);
        end := Raised;
      } else {
        CommitRun(t, paused);
        end := Finished;
      }
      ExtendsFurther(m, old(trace), middle, trace);
    }

    /** The failure handler of a last attempt. It does not look at the decision. */
    method MarkJobFailed(t: nat)
      requires Tracks() && proto.reviewer.Idle? && proto.tasks == map[t := Failing]
      modifies this
      ensures Tracks() && trace == old(trace) + [MarkFailed(t)]
      ensures proto.tasks == map[] && row == Row(LabelFailed, RunFailed, NotReady)
      ensures cp == old(cp) && decision == old(decision) && audit == old(audit)
    {
      Note(MarkFailed(t));
      row := row.(status := LabelFailed);
      row := row.(processing := RunFailed);
      row := row.(posting := NotReady);
    }

    // ----------------------------------------------------------------- the reviewer

    /** While a reviewer drives the graph, only the review node is still to be answered. */
    lemma ResumeFacts(wanted: Answer, pending: bool)
      requires Tracks() && cp.Some? && proto.reviewer == Resuming(wanted, cp.value, pending)
      ensures cp.value.next != EndNode ==> (pending <==> cp.value.next == ExceptionNode)
      ensures cp.value.next == EndNode ==> cp.value.values.answer == Some(wanted)
      ensures pending ==> StepsLeft(cp.value.next, cp.value.values.iterations) <= 4
    {
      Facts();
      assert ReviewerSound(proto.answered, proto.found, proto.reviewer) && ReviewerAgrees(proto);
    }

    ghost method ResumeCrashes()
      requires Tracks() && !proto.reviewer.Idle?
      modifies this`proto, this`trace
      ensures Tracks() && proto == old(proto).(reviewer := Idle)
    {
      Note(ReviewCrash);
    }

    ghost method ResumeEnds(wanted: Answer, pending: bool)
      requires Tracks() && cp.Some? && cp.value.next == EndNode && proto.reviewer == Resuming(wanted, cp.value, pending)
      modifies this`proto, this`trace
      ensures Tracks() && proto == old(proto).(reviewer := Deciding(wanted))
    {
      ResumeFacts(wanted, pending);
      Note(ReviewStep(OwnMatch(cp.value)));
    }

    /** Resume the paused graph with the decision; at most `lives` nodes run before a crash. */
    method Resume(m: MatchResult, wanted: Answer, lives: nat) returns (finished: bool)
      requires Tracks() && cp.Some? && proto.reviewer == Resuming(wanted, cp.value, true)
      modifies this
      ensures Tracks() && row == old(row) && decision == old(decision)
      ensures proto.tasks == old(proto).tasks
      ensures proto.reviewer == if finished then Deciding(wanted) else Idle
      ensures lives >= 4 ==> finished
    {
      ResumeFacts(wanted, true);
      ghost var bound := StepsLeft(cp.value.next, cp.value.values.iterations);
      var pending := true;
      var k := 0;
      while cp.value.next != EndNode
        invariant cp.Some? && Tracks() && row == old(row) && decision == old(decision)
        invariant proto.tasks == old(proto).tasks && proto.reviewer == Resuming(wanted, cp.value, pending)
        invariant k + StepsLeft(cp.value.next, cp.value.values.iterations) <= bound <= 4
        decreases StepsLeft(cp.value.next, cp.value.values.iterations)
      {
        ResumeFacts(wanted, pending);
        if k == lives {
          ResumeCrashes();
          return false;
        }
        ResumeNode(m, wanted, pending);
        pending := false;
        k := k + 1;
      }
      ResumeEnds(wanted, pending);
      finished := true;
    }

    method ResumeNode(m: MatchResult, wanted: Answer, pending: bool)
      requires Tracks() && cp.Some? && proto.reviewer == Resuming(wanted, cp.value, pending)
      requires cp.value.next != EndNode && (pending <==> cp.value.next == ExceptionNode)
      modifies this
      ensures Tracks() && row == old(row) && decision == old(decision)
      ensures cp == Some(Advance(m, old(cp).value, wanted)) && audit == NodeAudit(old(audit), old(cp).value)
      ensures proto.tasks == old(proto).tasks && proto.reviewer == Resuming(wanted, cp.value, false)
    {
      Note(ReviewStep(m));
      audit := NodeAudit(audit, cp.value);
      cp := Some(Advance(m, cp.value, wanted));
    }

    method CommitDecision(wanted: Answer)
      requires Tracks() && proto.reviewer == Deciding(wanted)
      modifies this
      ensures Tracks() && proto.reviewer.Idle? && proto.tasks == old(proto).tasks
      ensures decision == Some(wanted) && cp == old(cp) && Shows(wanted)
      ensures audit == Logged(old(audit), DecisionAudit(wanted))
    {
      Facts();
      Note(ReviewCommit);
      decision := Some(wanted);
      row := row.(processing := Complete);
      row := row.(posting := if wanted == Approved then ReadyForPosting else Blocked);
      row := row.(status := if wanted == Approved then LabelApproved else LabelRejected);
      audit := Logged(audit, DecisionAudit(wanted));
      DecisionShows();
    }

    /** The row and the audit log of a recorded decision. */
    ghost predicate Shows(wanted: Answer)
      reads this
    {
      && (wanted == Approved ==>
            && row == Row(LabelApproved, Complete, ReadyForPosting)
            && AuditApproved in audit && AuditRejected !in audit)
      && (wanted == Rejected ==>
            && row == Row(LabelRejected, Complete, Blocked)
            && AuditRejected in audit && AuditApproved !in audit)
    }

    lemma DecisionShows()
      requires Tracks() && decision.Some? && row == DecisionRow(decision.value)
      ensures Shows(decision.value)
    {
      var s := DecisionIsLogged(trace);
    }

    ghost function Answered(): Option<Answer>
      reads this
    {
      if cp.Some? then cp.value.values.answer else None
    }

    /** The review endpoint: row lock, checks, resume or reuse of the checkpoint, and one commit of
        decision, row and audit together. Each outcome is decided by the two stores as they were. */
    method DecideReview(m: MatchResult, wanted: Answer, lives: nat, committing: bool) returns (end: ReviewEnd)
      requires Tracks() && proto.reviewer.Idle? && Decided(Some(wanted))
      modifies this
      ensures Tracks() && proto.reviewer.Idle? && proto.tasks == old(proto).tasks
      ensures end == Recorded ==>
                && decision == Some(wanted) && Answered() == Some(wanted)
                && (wanted == Approved ==>
                      && row == Row(LabelApproved, Complete, ReadyForPosting)
                      && AuditApproved in audit && AuditRejected !in audit)
                && (wanted == Rejected ==>
                      && row == Row(LabelRejected, Complete, Blocked)
                      && AuditRejected in audit && AuditApproved !in audit)
      ensures end != Recorded ==> decision == old(decision) && row == old(row)
      ensures end == AlreadyRecorded <==> old(decision) == Some(wanted)
      ensures end == NotAwaitingReview <==> old(decision).None? && old(row).processing != AwaitingReview
      ensures end == DecisionConflict <==>
                var standing := if old(decision).Some? then old(decision) else old(Answered());
                (old(decision).Some? || old(row).processing == AwaitingReview) && standing.Some?
                    && standing != Some(wanted)
      ensures old(Answered()).Some? ==> cp == old(cp)
      ensures end == Interrupted ==> !committing || (old(Answered()).None? && lives < 4)
    {
      Facts();
      if decision.Some? {
        return if decision == Some(wanted) then AlreadyRecorded else DecisionConflict;
      }
      if row.processing != AwaitingReview {
        return NotAwaitingReview;
      }
      Note(ReviewBegin(wanted));
      if Decided(cp.value.values.answer) {
        if cp.value.values.answer != Some(wanted) {
          return DecisionConflict;
        }
      } else {
        var finished := Resume(m, wanted, lives);
        if !finished {
          return Interrupted;
        }
      }
      Facts();
      if !committing {
        ResumeCrashes();
        return Interrupted;
      }
      CommitDecision(wanted);
      end := Recorded;
    }
  }

  /** For any run that needs review: deliver it, approve it, and let a redelivery fail to load its
      records on the last attempt. The approval stays recorded, and the row says failed. */
  method OverwriteDecision(m: MatchResult) returns (s: Stores)
    requires RequiresReview(m)
    ensures s.Tracks() && s.decision == Some(Approved) && s.row == FAILED_ROW
  {
    s := new Stores();
    var first := s.RunWorkflowForJob(m, 0, false, k => Proceeds);
    FinalRowMeaning(m);
    PathIsPath(m);
    assert s.Answered() == None;
    assert s.row == AWAITING_ROW;
    var review := s.DecideReview(m, Approved, 4, true);
    var second := s.RunWorkflowForJob(m, 1, false, k => Raises);
    s.MarkJobFailed(1);
  }

  /** The status texts that are processing statuses too. */
  function AsProcessing(status: Label): Option<Processing> {
    match status
    case LabelRunning => Some(Running)
    case LabelRetrying => Some(Retrying)
    case LabelAwaiting => Some(AwaitingReview)
    case LabelComplete => Some(Complete)
    case LabelFailed => Some(RunFailed)
    case _ => None
  }

  /** Where a delivery that did not proceed stops. */
  function Stopped(fate: Fate): JobEnd {
    if fate == Raises then Raised else Died
  }

  /** One delivery's events, matching to `m`, and nothing of a reviewer's. */
  predicate Extends(m: MatchResult, before: seq<Event>, after: seq<Event>) {
    && |before| <= |after| && after[..|before|] == before
    && forall i :: |before| <= i < |after| ==> !IsReview(after[i]) && FindsOnly(m, after[i])
  }

  lemma ExtendsFurther(m: MatchResult, a: seq<Event>, b: seq<Event>, c: seq<Event>)
    requires Extends(m, a, b) && Extends(m, b, c)
    ensures Extends(m, a, c)
  {
  }
}
