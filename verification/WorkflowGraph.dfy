/** The invoice graph as a step function over checkpoints: node updates, routing, the interrupt
    for human review and the circuit breaker. */
module WorkflowGraph {
  import opened Options
  import opened Documents
  import opened Reconciliation

  datatype Node =
    | ExtractNode
    | MatchNode
    | SupervisorNode
    | ExceptionNode
    | ApproveNode
    | RejectNode
    | CompleteNode
    | EndNode

  datatype Processing = Running | Retrying | AwaitingReview | Complete | RunFailed

  datatype Posting = NotReady | ReadyForPosting | Blocked

  datatype Label =
    | LabelRunning
    | LabelRetrying
    | LabelExtracted
    | LabelMatched
    | LabelException
    | LabelAwaiting
    | LabelApproved
    | LabelRejected
    | LabelComplete
    | LabelFailed

  /** What a resume may carry; the graph does not restrict the text. */
  datatype Answer = Approved | Rejected | Other(text: string)

  predicate Decided(answer: Option<Answer>) {
    answer == Some(Approved) || answer == Some(Rejected)
  }

  /** What matching finds: no document row, no load number in it, or a shipment. */
  datatype MatchInput =
    | NoDocument
    | NoLoad
    | Assembled(evidence: Evidence, has: set<DocKind>, created: int, now: int, sla: int)

  /** What the checkpoint keeps of a match; review is required when a reason is reviewable. */
  datatype MatchResult = MatchResult(
    recon: Option<ReconStatus>,
    checks: seq<Check>,
    reviewable: seq<Reason>)

  predicate RequiresReview(m: MatchResult) {
    m.reviewable != []
  }

  function Matched(input: MatchInput): MatchResult {
    match input
    case NoDocument => MatchResult(None, [], [DocumentNotFound])
    case NoLoad => MatchResult(None, [], [NoLoadNumber])
    case Assembled(evidence, has, created, now, sla) =>
      var v := Evaluate(evidence, has, created, now, sla);
      MatchResult(Some(v.status), v.checks, Reviewable(v.reasons))
  }

  datatype Values = Values(
    result: Option<MatchResult>,
    reason: seq<Reason>,
    answer: Option<Answer>,
    status: Label,
    processing: Processing,
    posting: Posting,
    iterations: int)

  datatype Checkpoint = Checkpoint(values: Values, next: Node)

  function Initial(iterations: int): Checkpoint {
    Checkpoint(Values(None, [], None, LabelRunning, Running, NotReady, iterations), ExtractNode)
  }

  // ------------------------------------------------------------------------ nodes

  function CompleteUpdate(v: Values): Values {
    if v.reason != [] && !Decided(v.answer) then
      v.(status := LabelFailed, processing := RunFailed, posting := NotReady)
    else
      v.(status := if v.answer == Some(Approved) then LabelApproved
                  else if v.answer == Some(Rejected) then LabelRejected
                  else LabelComplete,
         processing := Complete,
         posting := if v.answer == Some(Approved)
                       || (v.answer.None? && v.result.Some? && v.result.value.recon == Some(Reconciled))
                    then ReadyForPosting
                    else if v.answer == Some(Rejected) then Blocked
                    else NotReady)
  }

  function NodeUpdate(m: MatchResult, node: Node, v: Values, answer: Answer): Values {
    var u :=
      match node
      case ExtractNode => v.(status := LabelExtracted, processing := Running)
      case MatchNode =>
            v.(result := Some(m), reason := m.reviewable, processing := Running,
           status := if RequiresReview(m) then LabelException else LabelMatched)
      case SupervisorNode => v
      case ExceptionNode => v.(answer := Some(answer), status := LabelAwaiting, processing := AwaitingReview)
      case ApproveNode => v.(status := LabelApproved)
      case RejectNode => v.(status := LabelRejected)
      case CompleteNode => CompleteUpdate(v)
      case EndNode => v;
    u.(iterations := v.iterations + 1)
  }

  function RouteAfterMatch(v: Values): Node {
    if v.iterations > 5 then CompleteNode
    else if v.reason != [] then SupervisorNode
    else CompleteNode
  }

  function RouteAfterException(v: Values): Node {
    if v.iterations > 5 then CompleteNode
    else if v.answer == Some(Approved) then ApproveNode
    else if v.answer == Some(Rejected) then RejectNode
    else ExceptionNode
  }

  function Route(node: Node, v: Values): Node {
    match node
    case ExtractNode => MatchNode
    case MatchNode => RouteAfterMatch(v)
    case SupervisorNode => ExceptionNode
    case ExceptionNode => RouteAfterException(v)
    case ApproveNode => CompleteNode
    case RejectNode => CompleteNode
    case CompleteNode => EndNode
    case EndNode => EndNode
  }

  function Advance(m: MatchResult, cp: Checkpoint, answer: Answer): Checkpoint {
    var v := NodeUpdate(m, cp.next, cp.values, answer);
    Checkpoint(v, Route(cp.next, v))
  }

  /** The nodes of the graph and what each leaves in the checkpoint; every node counts an iteration. */
  lemma NodeShows(m: MatchResult, cp: Checkpoint, answer: Answer, after: Checkpoint)
    requires after == Advance(m, cp, answer)
    ensures var v, u := cp.values, after.values;
            && u.iterations == v.iterations + 1
            && (cp.next == ExtractNode ==>
                  u == v.(status := LabelExtracted, processing := Running, iterations := u.iterations))
            && (cp.next == MatchNode ==>
                  && u.status == (if m.reviewable == [] then LabelMatched else LabelException)
                  && u.processing == Running
                  && u.result == Some(m) && u.reason == m.reviewable && u.answer == v.answer && u.posting == v.posting)
            && (cp.next == SupervisorNode ==> u == v.(iterations := u.iterations))
            && (cp.next == ExceptionNode ==>
                  u == v.(answer := Some(answer), status := LabelAwaiting, processing := AwaitingReview,
                          iterations := u.iterations))
            && (cp.next == ApproveNode ==> u == v.(status := LabelApproved, iterations := u.iterations))
            && (cp.next == RejectNode ==> u == v.(status := LabelRejected, iterations := u.iterations))
            && (cp.next == CompleteNode ==> u.result == v.result && u.reason == v.reason && u.answer == v.answer)
  {
  }

  /** The edges of the graph. Past the fifth iteration the breaker goes straight to completion. */
  lemma RoutesMean(m: MatchResult, cp: Checkpoint, answer: Answer, after: Checkpoint)
    requires after == Advance(m, cp, answer)
    ensures cp.next == ExtractNode ==> after.next == MatchNode
    ensures cp.next == MatchNode ==>
              (after.next == SupervisorNode <==> after.values.iterations <= 5 && RequiresReview(m))
              && after.next in {SupervisorNode, CompleteNode}
    ensures cp.next == SupervisorNode ==> after.next == ExceptionNode
    ensures cp.next == ExceptionNode ==>
              && (after.next == CompleteNode <==> after.values.iterations > 5)
              && (after.next == ApproveNode <==> after.values.iterations <= 5 && answer == Approved)
              && (after.next == RejectNode <==> after.values.iterations <= 5 && answer == Rejected)
              && (after.next == ExceptionNode <==> after.values.iterations <= 5 && answer.Other?)
    ensures cp.next in {ApproveNode, RejectNode} ==> after.next == CompleteNode
    ensures cp.next in {CompleteNode, EndNode} ==> after.next == EndNode
  {
  }

  // ------------------------------------------------------------------ termination

  function Max(a: int, b: int): int {
    if a < b then b else a
  }

  /** An upper bound on the node executions still to come. */
  function StepsLeft(next: Node, iterations: int): nat {
    match next
    case EndNode => 0
    case CompleteNode => 1
    case ApproveNode => 2
    case RejectNode => 2
    case ExceptionNode => Max(2, 7 - iterations)
    case SupervisorNode => 1 + Max(2, 6 - iterations)
    case MatchNode => 2 + Max(2, 5 - iterations)
    case ExtractNode => 3 + Max(2, 4 - iterations)
  }

  /** Run to the end, taking at each review the answer given for its iteration. Terminates from
      any starting iteration count, for any answers; at most seven nodes from zero. */
  function RunGraph(m: MatchResult, cp: Checkpoint, answers: int -> Answer): (r: (Checkpoint, nat))
    ensures r.0.next == EndNode
    ensures r.1 <= StepsLeft(cp.next, cp.values.iterations)
    decreases StepsLeft(cp.next, cp.values.iterations)
  {
    if cp.next == EndNode then (cp, 0)
    else
      var rest := RunGraph(m, Advance(m, cp, answers(cp.values.iterations)), answers);
      (rest.0, rest.1 + 1)
  }

  lemma AtMostSevenNodes(m: MatchResult, answers: int -> Answer)
    ensures RunGraph(m, Initial(0), answers).1 <= 7
  {
    assert StepsLeft(ExtractNode, 0) == 7;
  }

  // --------------------------------------------------------- what every run keeps

  /** What a checkpoint can hold, node by node. */
  predicate Coherent(m: MatchResult, cp: Checkpoint) {
    var v := cp.values;
    match cp.next
    case ExtractNode => v.result.None? && v.reason == [] && v.answer.None? && v.posting == NotReady
    case MatchNode => v.result.None? && v.reason == [] && v.answer.None? && v.posting == NotReady
    case EndNode =>
      && v.result == Some(m) && v.reason == m.reviewable && (v.reason == [] ==> v.answer.None?)
      && BusinessState(v) == BusinessState(CompleteUpdate(v))
    case _ =>
      && v.result == Some(m) && v.reason == m.reviewable && v.posting == NotReady
      && (cp.next == CompleteNode || v.reason != [])
      && (v.reason == [] || cp.next == SupervisorNode ==> v.answer.None?)
      && (cp.next == ExceptionNode ==> !Decided(v.answer))
      && (cp.next == ApproveNode ==> v.answer == Some(Approved))
      && (cp.next == RejectNode ==> v.answer == Some(Rejected))
  }

  /** The three dimensions a run row takes from its final values. */
  function BusinessState(v: Values): (Label, Processing, Posting) {
    (v.status, v.processing, v.posting)
  }

  lemma AdvanceCoherent(m: MatchResult, cp: Checkpoint, answer: Answer, after: Checkpoint)
    requires Coherent(m, cp) && after == Advance(m, cp, answer)
    ensures Coherent(m, after)
  {
  }

  lemma {:induction false} RunCoherent(m: MatchResult, cp: Checkpoint, answers: int -> Answer)
    returns (final: Checkpoint)
    requires Coherent(m, cp)
    ensures final == RunGraph(m, cp, answers).0
    ensures Coherent(m, final) && final.next == EndNode
    decreases StepsLeft(cp.next, cp.values.iterations)
  {
    if cp.next == EndNode {
      return cp;
    }
    var after := Advance(m, cp, answers(cp.values.iterations));
    AdvanceCoherent(m, cp, answers(cp.values.iterations), after);
    final := RunCoherent(m, after, answers);
  }

  /** However long the review loop runs and whatever strings it is answered with: an exception
      ends failed and not ready exactly when no valid decision was recorded; with one, the
      decision alone fixes the outcome; without an exception, only a fully reconciled shipment
      becomes ready. */
  lemma GraphOutcome(m: MatchResult, iterations: int, answers: int -> Answer)
    ensures var v := RunGraph(m, Initial(iterations), answers).0.values;
      && v.result == Some(m)
      && (BusinessState(v) == (LabelFailed, RunFailed, NotReady) <==> RequiresReview(m) && !Decided(v.answer))
      && (v.answer == Some(Approved) ==> BusinessState(v) == (LabelApproved, Complete, ReadyForPosting))
      && (v.answer == Some(Rejected) ==> BusinessState(v) == (LabelRejected, Complete, Blocked))
      && (!RequiresReview(m) ==>
            && v.answer.None?
            && BusinessState(v) == (LabelComplete, Complete,
                 if m.recon == Some(Reconciled) then ReadyForPosting else NotReady))
  {
    var final := RunCoherent(m, Initial(iterations), answers);
  }

  /** Answering a paused review with a valid decision gives the same outcome through the approve
      or reject node as through the circuit breaker: the iteration count does not matter. */
  lemma BreakerAgrees(m: MatchResult, v: Values, decision: Answer, answers: int -> Answer)
    requires Coherent(m, Checkpoint(v, ExceptionNode))
    requires Decided(Some(decision)) && answers(v.iterations) == decision
    ensures var final := RunGraph(m, Checkpoint(v, ExceptionNode), answers).0.values;
            && final.answer == Some(decision)
            && BusinessState(final) == if decision == Approved then (LabelApproved, Complete, ReadyForPosting)
                                 else (LabelRejected, Complete, Blocked)
  {
    var paused := Checkpoint(v, ExceptionNode);
    var answered := Advance(m, paused, decision);
    assert answered.next in {ApproveNode, RejectNode, CompleteNode};
    if answered.next != CompleteNode {
      var through := Advance(m, answered, answers(answered.values.iterations));
      assert through.next == CompleteNode && through.values.answer == Some(decision);
      FinishComplete(m, through, answers);
    } else {
      FinishComplete(m, answered, answers);
    }
  }

  lemma FinishComplete(m: MatchResult, cp: Checkpoint, answers: int -> Answer)
    requires cp.next == CompleteNode
    ensures RunGraph(m, cp, answers).0 == Advance(m, cp, answers(cp.values.iterations))
  {
  }

  /** All nine checks of the run's own reconciliation passed, and nobody needs to be asked. */
  predicate CleanMatch(input: MatchInput) {
    && input.Assembled?
    && |Matched(input).checks| == 9
    && AllPassed(Matched(input).checks)
    && !RequiresReview(Matched(input))
  }

  lemma ReconciledMeansClean(input: MatchInput)
    ensures Matched(input).recon == Some(Reconciled) <==> CleanMatch(input)
  {
    if input.Assembled? {
      var v := Evaluate(input.evidence, input.has, input.created, input.now, input.sla);
      StatusMeaning(input.evidence, input.has, input.created, input.now, input.sla);
      ReviewIffContentFailure(input.evidence, input.has, input.created, input.now, input.sla);
      assert AllPassed(v.checks) ==> !NeedsReview(v);
    }
  }

  /** Some check of the shipment failed that is not a required document's. */
  predicate ContentFailed(input: MatchInput) {
    && input.Assembled?
    && var v := Evaluate(input.evidence, input.has, input.created, input.now, input.sla);
       exists i :: 0 <= i < |v.checks| && v.checks[i].outcome == Failed && !v.checks[i].name.RequiredCheck?
  }

  lemma SameFailures(v: Evaluation)
    requires forall i :: 0 <= i < |v.checks| ==> ReasonFits(v.checks[i])
    ensures NeedsReview(v) <==>
              exists i :: 0 <= i < |v.checks| && v.checks[i].outcome == Failed && !v.checks[i].name.RequiredCheck?
  {
    forall i | 0 <= i < |v.checks|
      ensures v.checks[i].outcome == Failed && v.checks[i].reason.Some? && !v.checks[i].reason.value.Overdue? <==>
                v.checks[i].outcome == Failed && !v.checks[i].name.RequiredCheck?
    {
      assert ReasonFits(v.checks[i]);
    }
  }

  lemma ContentAsks(input: MatchInput)
    requires input.Assembled?
    ensures RequiresReview(Matched(input)) <==> ContentFailed(input)
  {
    var v := Evaluate(input.evidence, input.has, input.created, input.now, input.sla);
    ReasonsFit(input.evidence, input.has, input.created, input.now, input.sla);
    ReviewIffContentFailure(input.evidence, input.has, input.created, input.now, input.sla);
    SameFailures(v);
  }

  /** Exactly when a match asks for review: there is no document, or no load number in it, each with
      its own reason, or a check other than a required document's failed. */
  lemma ReviewAskedIff(input: MatchInput)
    ensures RequiresReview(Matched(input)) <==> input.NoDocument? || input.NoLoad? || ContentFailed(input)
    ensures input.NoDocument? ==> Matched(input) == MatchResult(None, [], [DocumentNotFound])
    ensures input.NoLoad? ==> Matched(input) == MatchResult(None, [], [NoLoadNumber])
  {
    if input.Assembled? {
      ContentAsks(input);
    }
  }

  /** Without a document or a load number, and with a failed content check, no graph run completes
      without a valid decision: undecided it ends failed and not ready. */
  lemma AskedNeedsDecision(input: MatchInput, iterations: int, answers: int -> Answer)
    requires input.NoDocument? || input.NoLoad? || ContentFailed(input)
    ensures var v := RunGraph(Matched(input), Initial(iterations), answers).0.values;
            && (v.processing == Complete <==> v.answer == Some(Approved) || v.answer == Some(Rejected))
            && (v.processing != Complete ==>
                  v.status == LabelFailed && v.processing == RunFailed && v.posting == NotReady)
  {
    ReviewAskedIff(input);
    GraphOutcome(Matched(input), iterations, answers);
  }

  /** A checkpoint is ready for posting only if a human approved it, or its own reconciliation
      was clean and nobody was asked. */
  lemma ReadyMeansApprovedOrClean(input: MatchInput, cp: Checkpoint)
    requires Coherent(Matched(input), cp) && cp.values.posting == ReadyForPosting
    ensures cp.values.answer == Some(Approved) || (cp.values.answer.None? && CleanMatch(input))
  {
    ReconciledMeansClean(input);
  }

  /** A shipment whose only failed checks are overdue documents never asks for review, and never
      becomes ready. */
  lemma SlaOnlyNeverReady(input: MatchInput, iterations: int, answers: int -> Answer)
    requires input.Assembled?
    requires var v := Evaluate(input.evidence, input.has, input.created, input.now, input.sla);
             AnyOutcome(v.checks, Failed) && !NeedsReview(v)
    ensures var v := RunGraph(Matched(input), Initial(iterations), answers).0.values;
            BusinessState(v) == (LabelComplete, Complete, NotReady)
  {
    ReviewIffContentFailure(input.evidence, input.has, input.created, input.now, input.sla);
    StatusMeaning(input.evidence, input.has, input.created, input.now, input.sla);
    GraphOutcome(Matched(input), iterations, answers);
  }

  // ------------------------------------------------- runs that start fresh and get valid answers

  /** Checkpoints of a run that started at iteration zero and was only ever answered with
      approved or rejected: the breaker is never taken with the exception unresolved. */
  predicate Normal(m: MatchResult, cp: Checkpoint) {
    var v := cp.values;
    && Coherent(m, cp)
    && (cp.next == ExtractNode ==> v.iterations == 0)
    && (cp.next == MatchNode ==> v.iterations == 1)
    && (cp.next == SupervisorNode ==> v.iterations == 2)
    && (cp.next == ExceptionNode ==> v.iterations == 3 && v.answer.None?)
    && (cp.next in {CompleteNode, EndNode} && v.reason != [] ==> Decided(v.answer))
    && (v.answer.Some? ==> Decided(v.answer))
  }

  lemma AdvanceNormal(m: MatchResult, cp: Checkpoint, answer: Answer, after: Checkpoint)
    requires Normal(m, cp) && after == Advance(m, cp, answer)
    requires Decided(Some(answer))
    ensures Normal(m, after)
    ensures cp.next != ExceptionNode ==> after.values.answer == cp.values.answer
    ensures cp.next == ExceptionNode ==> after.values.answer == Some(answer)
  {
    AdvanceCoherent(m, cp, answer, after);
  }

  /** The match a checkpoint carries; before matching it has none, and any will do. */
  function OwnMatch(cp: Checkpoint): MatchResult {
    if cp.values.result.Some? then cp.values.result.value else MatchResult(None, [], [])
  }

  predicate Regular(cp: Checkpoint) {
    Normal(OwnMatch(cp), cp)
  }

  /** Whatever the match node finds this time, the checkpoint after it is regular for just that;
      no other node looks for anything. */
  lemma AdvanceRegular(found: MatchResult, cp: Checkpoint, answer: Answer, after: Checkpoint)
    requires Regular(cp) && after == Advance(found, cp, answer) && Decided(Some(answer))
    ensures Regular(after)
    ensures after.values.result == if cp.next == MatchNode then Some(found) else cp.values.result
    ensures cp.next != ExceptionNode ==> after.values.answer == cp.values.answer
    ensures cp.next == ExceptionNode ==> after.values.answer == Some(answer) && RequiresReview(OwnMatch(cp))
  {
    if cp.next == ExtractNode || cp.next == MatchNode {
      assert Normal(found, cp);
      AdvanceNormal(found, cp, answer, after);
    } else {
      assert after == Advance(OwnMatch(cp), cp, answer);
      AdvanceNormal(OwnMatch(cp), cp, answer, after);
    }
  }

  /** A match that is reconciled, and asks nobody. */
  predicate CleanResult(m: MatchResult) {
    m.recon == Some(Reconciled) && !RequiresReview(m)
  }

  /** The row outcome a decision stands for. */
  function DecisionState(decision: Answer): (Label, Processing, Posting) {
    if decision == Approved then (LabelApproved, Complete, ReadyForPosting)
    else (LabelRejected, Complete, Blocked)
  }

  lemma NormalEnd(m: MatchResult, cp: Checkpoint)
    requires Normal(m, cp) && cp.next == EndNode
    ensures cp.values.processing == Complete
    ensures Decided(cp.values.answer) ==> BusinessState(cp.values) == DecisionState(cp.values.answer.value)
    ensures cp.values.answer.None? <==> !RequiresReview(m)
    ensures cp.values.answer.None? ==>
              (cp.values.posting == if CleanResult(m) then ReadyForPosting else NotReady)
  {
  }
}
