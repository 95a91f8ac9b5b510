/** The missing-document policy and the versioned exception row with its before/after log. */
module MissingDocuments {
  import opened Options
  import opened Documents

  // ------------------------------------------------------------------ policy

  function Missing(kinds: seq<DocKind>, has: set<DocKind>): seq<DocKind> {
    if kinds == [] then []
    else
      var n := |kinds| - 1;
      Missing(kinds[..n], has) + (if kinds[n] in has then [] else [kinds[n]])
  }

  function OverdueReasons(missing: seq<DocKind>): seq<Reason> {
    if missing == [] then []
    else OverdueReasons(missing[..|missing| - 1]) + [Overdue(missing[|missing| - 1])]
  }

  function RequiredOutcome(kind: DocKind, has: set<DocKind>, overdue: bool): Check {
    if kind in has then Check(RequiredCheck(kind), Passed, None)
    else if overdue then Check(RequiredCheck(kind), Failed, Some(Overdue(kind)))
    else Check(RequiredCheck(kind), NotEvaluated, None)
  }

  function RequiredChecks(kinds: seq<DocKind>, has: set<DocKind>, overdue: bool): seq<Check> {
    if kinds == [] then []
    else
      var n := |kinds| - 1;
      RequiredChecks(kinds[..n], has, overdue) + [RequiredOutcome(kinds[n], has, overdue)]
  }

  datatype PolicyState = AllPresent | WithinGrace | PastDeadline

  datatype Policy = Policy(
    state: PolicyState,
    deadline: int,
    missing: seq<DocKind>,
    reasons: seq<Reason>,
    checks: seq<Check>)

  /** The policy over a table of required documents; the service's table is `REQUIRED`. */
  function PolicyFor(required: seq<DocKind>, has: set<DocKind>, created: int, now: int, sla: int): Policy {
    var missing := Missing(required, has);
    var overdue := missing != [] && now >= created + sla;
    Policy(if overdue then PastDeadline else if missing != [] then WithinGrace else AllPresent,
           created + sla,
           missing,
           if overdue then OverdueReasons(missing) else [],
           RequiredChecks(required, has, overdue))
  }

  /** The evaluation as the service runs it: one pass for the missing documents, one pass
      appending a check, and a reason code when overdue, per required document. */
  method EvaluatePolicy(required: seq<DocKind>, has: set<DocKind>, created: int, now: int, sla: int)
    returns (policy: Policy)
    ensures policy == PolicyFor(required, has, created, now, sla)
  {
    var deadline := created + sla;
    var missing: seq<DocKind> := [];
    for i := 0 to |required|
      invariant missing == Missing(required[..i], has)
    {
      assert required[..i + 1][..i] == required[..i];
      if required[i] !in has {
        missing := missing + [required[i]];
      }
    }
    assert required[..|required|] == required;
    var overdue := missing != [] && now >= deadline;
    var checks: seq<Check> := [];
    var reasons: seq<Reason> := [];
    for i := 0 to |required|
      invariant checks == RequiredChecks(required[..i], has, overdue)
      invariant reasons == if overdue then OverdueReasons(Missing(required[..i], has)) else []
    {
      assert required[..i + 1][..i] == required[..i];
      var kind := required[i];
      if kind in has {
        assert Missing(required[..i + 1], has) == Missing(required[..i], has);
        checks := checks + [Check(RequiredCheck(kind), Passed, None)];
      } else if overdue {
        ghost var before := Missing(required[..i], has);
        assert (before + [kind])[..|before|] == before;
        checks := checks + [Check(RequiredCheck(kind), Failed, Some(Overdue(kind)))];
        reasons := reasons + [Overdue(kind)];
      } else {
        checks := checks + [Check(RequiredCheck(kind), NotEvaluated, None)];
      }
    }
    policy := Policy(if overdue then PastDeadline else if missing != [] then WithinGrace else AllPresent,
                     deadline, missing, reasons, checks);
  }

  lemma {:induction false} RequiredCheckAt(kinds: seq<DocKind>, has: set<DocKind>, overdue: bool, i: nat)
    requires i < |kinds|
    ensures |RequiredChecks(kinds, has, overdue)| == |kinds|
    ensures RequiredChecks(kinds, has, overdue)[i] == RequiredOutcome(kinds[i], has, overdue)
    decreases |kinds|
  {
    var n := |kinds| - 1;
    if n > 0 {
      RequiredCheckAt(kinds[..n], has, overdue, if i < n then i else 0);
    }
  }

  /** The policy, document by document: a required document's check passes when it is there and fails
      from the deadline on when it is not, with a reason of its own; past the deadline with anything
      missing the policy is overdue, before it within grace. */
  ghost predicate PolicyFits(required: seq<DocKind>, has: set<DocKind>, deadline: int, now: int, policy: Policy) {
    && policy.deadline == deadline && |policy.checks| == |required|
    && (policy.state == AllPresent <==> forall k :: k in required ==> k in has)
    && (policy.state == PastDeadline <==> (exists k :: k in required && k !in has) && now >= deadline)
    && (forall k :: k in policy.missing <==> k in required && k !in has)
    && (forall i :: 0 <= i < |required| ==>
          policy.checks[i] == (if required[i] in has then Check(RequiredCheck(required[i]), Passed, None)
                               else if now >= deadline
                               then Check(RequiredCheck(required[i]), Failed, Some(Overdue(required[i])))
                               else Check(RequiredCheck(required[i]), NotEvaluated, None)))
    && |policy.reasons| == (if policy.state == PastDeadline then |policy.missing| else 0)
    && (forall i :: 0 <= i < |policy.reasons| ==> policy.reasons[i] == Overdue(policy.missing[i]))
  }

  lemma {:induction false} OverdueReasonAt(missing: seq<DocKind>, i: nat)
    ensures |OverdueReasons(missing)| == |missing|
    ensures i < |missing| ==> OverdueReasons(missing)[i] == Overdue(missing[i])
    decreases |missing|
  {
    if missing != [] {
      OverdueReasonAt(missing[..|missing| - 1], i);
    }
  }

  lemma PolicyMeans(required: seq<DocKind>, has: set<DocKind>, created: int, now: int, sla: int)
    ensures PolicyFits(required, has, created + sla, now, PolicyFor(required, has, created, now, sla))
  {
    var policy := PolicyFor(required, has, created, now, sla);
    MissingMembers(required, has);
    OverdueReasonAt(policy.missing, 0);
    forall i | 0 <= i < |policy.reasons| ensures policy.reasons[i] == Overdue(policy.missing[i]) {
      OverdueReasonAt(policy.missing, i);
    }
    assert policy.missing != [] ==> policy.missing[0] in policy.missing;
    if required != [] {
      RequiredCheckAt(required, has, policy.missing != [] && now >= created + sla, 0);
    }
    forall i | 0 <= i < |required|
      ensures policy.checks[i] == RequiredOutcome(required[i], has, policy.missing != [] && now >= created + sla)
    {
      RequiredCheckAt(required, has, policy.missing != [] && now >= created + sla, i);
      assert required[i] !in has ==> required[i] in policy.missing;
    }
  }

  lemma {:induction false} MissingMembers(kinds: seq<DocKind>, has: set<DocKind>)
    ensures forall k :: k in Missing(kinds, has) <==> k in kinds && k !in has
  {
    if kinds != [] {
      MissingMembers(kinds[..|kinds| - 1], has);
      assert kinds == kinds[..|kinds| - 1] + [kinds[|kinds| - 1]];
    }
  }

  lemma {:induction false} MissingAtMost(kinds: seq<DocKind>, has: set<DocKind>)
    ensures |Missing(kinds, has)| <= |kinds|
  {
    if kinds != [] {
      MissingAtMost(kinds[..|kinds| - 1], has);
    }
  }

  /** Everything still missing was missing before, and something no longer is. */
  predicate ProperlyFewer(fewer: seq<DocKind>, missing: seq<DocKind>) {
    && |fewer| < |missing|
    && (forall k :: k in fewer ==> k in missing)
    && (exists k :: k in missing && k !in fewer)
  }

  /** With more documents the missing list stays the same list or is properly fewer. */
  lemma {:induction false} MissingStaysOrShrinks(kinds: seq<DocKind>, has: set<DocKind>, more: set<DocKind>)
    requires has <= more
    ensures Missing(kinds, more) == Missing(kinds, has) || ProperlyFewer(Missing(kinds, more), Missing(kinds, has))
  {
    MissingMembers(kinds, has);
    MissingMembers(kinds, more);
    MissingShrinks(kinds, has, more);
    if kinds != [] && Missing(kinds, more) != Missing(kinds, has) {
      var n := |kinds| - 1;
      MissingStaysOrShrinks(kinds[..n], has, more);
      if kinds[n] !in has && kinds[n] in more {
        assert kinds[n] in Missing(kinds, has) && kinds[n] !in Missing(kinds, more);
      } else {
        MissingMembers(kinds[..n], has);
        MissingMembers(kinds[..n], more);
        var k :| k in Missing(kinds[..n], has) && k !in Missing(kinds[..n], more);
        assert k in Missing(kinds, has) && k !in Missing(kinds, more);
      }
    }
  }

  /** More documents never lengthen the missing list, and an equally long list is the same list. */
  lemma {:induction false} MissingShrinks(kinds: seq<DocKind>, has: set<DocKind>, more: set<DocKind>)
    requires has <= more
    ensures |Missing(kinds, more)| <= |Missing(kinds, has)|
    ensures |Missing(kinds, more)| == |Missing(kinds, has)| ==> Missing(kinds, more) == Missing(kinds, has)
  {
    if kinds != [] {
      MissingShrinks(kinds[..|kinds| - 1], has, more);
    }
  }

  // -------------------------------------------------- exception row and event log

  datatype ExceptionStatus = Active | Resolved

  datatype ExceptionState = ExceptionState(
    status: ExceptionStatus,
    missing: seq<DocKind>,
    reasons: seq<Reason>,
    deadline: int)

  datatype ExceptionRow = ExceptionRow(
    state: ExceptionState,
    version: nat,
    openedAt: int,
    resolvedAt: Option<int>)

  datatype Transition = Opened | Changed | Closed

  datatype Event = Event(
    version: nat,
    transition: Transition,
    before: Option<ExceptionState>,
    after: ExceptionState,
    at: int)

  datatype Log = Log(row: Option<ExceptionRow>, events: seq<Event>)

  const EMPTY_LOG := Log(None, [])

  predicate IsActive(log: Log) {
    log.row.Some? && log.row.value.state.status == Active
  }

  /** The state a deadline asks for, given what is missing at a moment. */
  function Target(missing: seq<DocKind>, deadline: int, now: int): ExceptionState {
    if missing != [] && now >= deadline
    then ExceptionState(Active, missing, OverdueReasons(missing), deadline)
    else ExceptionState(Resolved, [], [], deadline)
  }

  function Desired(policy: Policy): ExceptionState {
    if policy.state == PastDeadline
    then ExceptionState(Active, policy.missing, policy.reasons, policy.deadline)
    else ExceptionState(Resolved, [], [], policy.deadline)
  }

  function SyncedTo(log: Log, after: ExceptionState, now: int): Log {
    match log.row
    case None =>
      if after.status == Resolved then log
      else Log(Some(ExceptionRow(after, 1, now, None)), log.events + [Event(1, Opened, None, after, now)])
    case Some(row) =>
      if row.state == after then log
      else
        var transition :=
          if after.status == Resolved then Closed
          else if row.state.status == Resolved then Opened
          else Changed;
        Log(Some(ExceptionRow(after, row.version + 1,
                              if transition == Opened then now else row.openedAt,
                              if after.status == Active then None else Some(now))),
            log.events + [Event(row.version + 1, transition, Some(row.state), after, now)])
  }

  function Synced(log: Log, policy: Policy, now: int): Log {
    SyncedTo(log, Desired(policy), now)
  }

  /** `sync_missing_document_exception` on the row it has locked and the event it adds. */
  method SyncException(existing: Option<ExceptionRow>, policy: Policy, now: int)
    returns (row: Option<ExceptionRow>, event: Option<Event>)
    ensures forall events :: Synced(Log(existing, events), policy, now)
                          == Log(row, if event.Some? then events + [event.value] else events)
  {
    var desiredActive := policy.state == PastDeadline;
    if existing.None? {
      if !desiredActive {
        return None, None;
      }
      var initial := ExceptionState(Active, policy.missing, policy.reasons, policy.deadline);
      row := Some(ExceptionRow(initial, 1, now, None));
      event := Some(Event(1, Opened, None, initial, now));
      return;
    }
    var current := existing.value;
    var before := current.state;
    var desiredMissing := if desiredActive then policy.missing else [];
    var desiredReasons := if desiredActive then policy.reasons else [];
    var same :=
      && before.status == (if desiredActive then Active else Resolved)
      && before.missing == desiredMissing
      && before.reasons == desiredReasons
      && before.deadline == policy.deadline;
    if same {
      return existing, None;
    }
    var transition :=
      if !desiredActive then Closed else if before.status == Resolved then Opened else Changed;
    current := current.(version := current.version + 1);
    current := current.(state := ExceptionState(if desiredActive then Active else Resolved,
                                                desiredMissing, desiredReasons, policy.deadline));
    current := current.(resolvedAt := if desiredActive then None else Some(now));
    if transition == Opened {
      current := current.(openedAt := now);
    }
    row := Some(current);
    event := Some(Event(current.version, transition, Some(before), current.state, now));
  }

  // ---------------------------------------------------- the log reconstructs the row

  /** The row an auditor would rebuild from one more event, using nothing but the event. */
  function RowAfter(row: Option<ExceptionRow>, e: Event): Option<ExceptionRow> {
    Some(ExceptionRow(e.after, e.version,
                      if e.transition == Opened || row.None? then e.at else row.value.openedAt,
                      if e.after.status == Resolved then Some(e.at) else None))
  }

  function Rebuilt(events: seq<Event>): Option<ExceptionRow> {
    if events == [] then None
    else RowAfter(Rebuilt(events[..|events| - 1]), events[|events| - 1])
  }

  function StateAfter(events: seq<Event>): Option<ExceptionState> {
    if events == [] then None else Some(events[|events| - 1].after)
  }

  /** Versions count up from one, each before-state is the previous after-state, no event is a
      no-op, and the transition names what happened. */
  predicate Chained(events: seq<Event>) {
    events == [] ||
    (var n := |events| - 1;
     var e := events[n];
     && Chained(events[..n])
     && e.version == n + 1
     && e.before == StateAfter(events[..n])
     && e.before != Some(e.after)
     && (e.transition == Closed <==> e.after.status == Resolved)
     && (e.transition == Opened <==>
           e.after.status == Active && (e.before.None? || e.before.value.status == Resolved)))
  }

  predicate Consistent(log: Log) {
    && Chained(log.events)
    && Rebuilt(log.events) == log.row
  }

  lemma SyncKeepsConsistent(log: Log, policy: Policy, now: int)
    requires Consistent(log)
    ensures Consistent(Synced(log, policy, now))
  {
    var next := Synced(log, policy, now);
    if next != log {
      assert next.events[..|log.events|] == log.events;
    }
  }

  datatype SyncCall = SyncCall(policy: Policy, now: int)

  function SyncedAll(log: Log, calls: seq<SyncCall>): Log {
    if calls == [] then log
    else
      var n := |calls| - 1;
      Synced(SyncedAll(log, calls[..n]), calls[n].policy, calls[n].now)
  }

  /** Over any sequence of synchronizations, with any policies, deadlines and clocks: versions
      run 1..n, every before-state is the previous after-state and differs from its own
      after-state, the events alone rebuild the row, and `resolvedAt` is set iff resolved. */
  lemma {:induction false} LogReconstructsRow(calls: seq<SyncCall>)
    ensures var log := SyncedAll(EMPTY_LOG, calls);
            && Consistent(log)
            && (log.row.Some? ==>
                  && log.row.value.version == |log.events|
                  && (log.row.value.resolvedAt.Some? <==> log.row.value.state.status == Resolved))
    decreases |calls|
  {
    if calls != [] {
      var n := |calls| - 1;
      LogReconstructsRow(calls[..n]);
      SyncKeepsConsistent(SyncedAll(EMPTY_LOG, calls[..n]), calls[n].policy, calls[n].now);
    }
  }

  /** Synchronizing the same policy again, at any later time, records nothing. */
  lemma SyncIdempotent(log: Log, policy: Policy, now: int, later: int)
    ensures Synced(Synced(log, policy, now), policy, later) == Synced(log, policy, now)
  {
    var once := Synced(log, policy, now);
    if once.row.Some? {
      assert once.row.value.state == Desired(policy);
    }
  }

  // ----------------------------------------------------------------- lifecycle bound

  datatype Observation = Observation(has: set<DocKind>, now: int)

  /** Presence flags are only ever set and the clock does not go back. */
  predicate Monotone(obs: seq<Observation>) {
    |obs| <= 1 ||
    (var n := |obs| - 1;
     Monotone(obs[..n]) && obs[n - 1].has <= obs[n].has && obs[n - 1].now <= obs[n].now)
  }

  /** The log after each observation in turn is evaluated and synchronized; `PolicyAsksForTarget`
      says that the target is what the policy of that moment asks for. */
  function Observed(required: seq<DocKind>, obs: seq<Observation>, created: int, sla: int): Log {
    if obs == [] then EMPTY_LOG
    else
      var n := |obs| - 1;
      SyncedTo(Observed(required, obs[..n], created, sla),
               Target(Missing(required, obs[n].has), created + sla, obs[n].now), obs[n].now)
  }

  function PolicyCalls(required: seq<DocKind>, obs: seq<Observation>, created: int, sla: int): seq<SyncCall> {
    if obs == [] then []
    else
      var n := |obs| - 1;
      PolicyCalls(required, obs[..n], created, sla)
        + [SyncCall(PolicyFor(required, obs[n].has, created, obs[n].now, sla), obs[n].now)]
  }

  lemma {:induction false} ObservedRunsThePolicy(required: seq<DocKind>, obs: seq<Observation>, created: int, sla: int)
    ensures Observed(required, obs, created, sla) == SyncedAll(EMPTY_LOG, PolicyCalls(required, obs, created, sla))
    decreases |obs|
  {
    if obs != [] {
      var n := |obs| - 1;
      ObservedRunsThePolicy(required, obs[..n], created, sla);
      PolicyAsksForTarget(required, obs[n].has, created, obs[n].now, sla);
      var calls := PolicyCalls(required, obs, created, sla);
      assert calls[..|calls| - 1] == PolicyCalls(required, obs[..n], created, sla);
    }
  }

  /** opened, changed*, optionally closed; each event's missing documents are a proper subset of the
      ones before. */
  predicate Lifecycle(events: seq<Event>) {
    if |events| <= 1 then events == [] || events[0].transition == Opened
    else
      var n := |events| - 1;
      && Lifecycle(events[..n])
      && events[n - 1].transition != Closed
      && events[n].transition != Opened
      && ProperlyFewer(events[n].after.missing, events[n - 1].after.missing)
  }

  /** What a log looks like right after synchronizing with `missing` at time `now`. */
  predicate InStep(log: Log, missing: seq<DocKind>, deadline: int, now: int, most: nat) {
    && Lifecycle(log.events)
    && (log.row.None? <==> log.events == [])
    && (log.row.None? && missing != [] ==> now < deadline)
    && (log.row.Some? ==>
          var last := log.events[|log.events| - 1];
          && log.row.value.state == Target(missing, deadline, now) == last.after
          && (last.transition == Closed <==> missing == [])
          && (missing != [] ==> now >= deadline)
          && |log.events| + |missing| <= most + 1)
  }

  lemma StepKept(log: Log, missing: seq<DocKind>, now: int, fewer: seq<DocKind>, later: int, deadline: int, most: nat)
    requires InStep(log, missing, deadline, now, most) && now <= later
    requires fewer == missing || ProperlyFewer(fewer, missing)
    requires |fewer| <= most
    ensures InStep(SyncedTo(log, Target(fewer, deadline, later), later), fewer, deadline, later, most)
    ensures log.row.Some? && log.row.value.state.status == Resolved ==>
              SyncedTo(log, Target(fewer, deadline, later), later) == log
  {
    var next := SyncedTo(log, Target(fewer, deadline, later), later);
    if log.row.Some? && next != log {
      assert ProperlyFewer(fewer, missing);
      assert missing != [] ==> missing[0] in missing;
      assert next.events[..|log.events|] == log.events;
    }
  }

  lemma PolicyAsksForTarget(required: seq<DocKind>, has: set<DocKind>, created: int, now: int, sla: int)
    ensures Desired(PolicyFor(required, has, created, now, sla)) == Target(Missing(required, has), created + sla, now)
  {
  }

  lemma ObservationKept(required: seq<DocKind>, log: Log, o: Observation, next: Observation, deadline: int, after: Log)
    requires InStep(log, Missing(required, o.has), deadline, o.now, |required|)
    requires o.has <= next.has && o.now <= next.now
    requires after == SyncedTo(log, Target(Missing(required, next.has), deadline, next.now), next.now)
    ensures InStep(after, Missing(required, next.has), deadline, next.now, |required|)
    ensures log.row.Some? && log.row.value.state.status == Resolved ==> after == log
  {
    MissingAtMost(required, next.has);
    MissingStaysOrShrinks(required, o.has, next.has);
    StepKept(log, Missing(required, o.has), o.now, Missing(required, next.has), next.now, deadline, |required|);
  }

  lemma {:induction false} LifecycleKept(required: seq<DocKind>, obs: seq<Observation>, created: int, sla: int)
    returns (log: Log)
    requires Monotone(obs) && obs != []
    ensures log == Observed(required, obs, created, sla)
    ensures var last := obs[|obs| - 1];
            InStep(log, Missing(required, last.has), created + sla, last.now, |required|)
    decreases |obs|
  {
    var n := |obs| - 1;
    log := Observed(required, obs, created, sla);
    if n == 0 {
      MissingAtMost(required, obs[n].has);
    } else {
      var before := LifecycleKept(required, obs[..n], created, sla);
      ObservationKept(required, before, obs[n - 1], obs[n], created + sla, log);
    }
  }

  /** With a fixed SLA, flags that are only set and a clock that does not go back, a shipment's
      log reads opened, changed*, optionally closed, each time with a proper subset of the
      documents missing before. It is active exactly when the latest observation is overdue, and with
      the four required documents it never holds more than five events. */
  lemma LifecycleBound(obs: seq<Observation>, created: int, sla: int)
    requires Monotone(obs)
    ensures var log := Observed(REQUIRED, obs, created, sla);
            && Lifecycle(log.events)
            && |log.events| <= 5
            && (obs != [] ==> (IsActive(log) <==>
                  Missing(REQUIRED, obs[|obs| - 1].has) != [] && obs[|obs| - 1].now >= created + sla))
  {
    if obs != [] {
      var _ := LifecycleKept(REQUIRED, obs, created, sla);
    }
  }

  /** Once closed, a log never grows again. */
  lemma ClosedIsFinal(required: seq<DocKind>, obs: seq<Observation>, next: Observation, created: int, sla: int)
    requires Monotone(obs + [next]) && obs != []
    requires var log := Observed(required, obs, created, sla);
             log.row.Some? && log.row.value.state.status == Resolved
    ensures Observed(required, obs + [next], created, sla) == Observed(required, obs, created, sla)
  {
    var n := |obs|;
    assert (obs + [next])[..n] == obs;
    var log := LifecycleKept(required, obs, created, sla);
    ObservationKept(required, log, obs[n - 1], next, created + sla, Observed(required, obs + [next], created, sla));
  }
}
