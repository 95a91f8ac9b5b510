/** The SLA notification outbox: one dispatch loop, and any number of them over the same rows with
    crashes at any point. */
module Outbox {
  import opened Options

  datatype Status = Pending | Sending | Sent | Failed

  datatype Notice = Notice(status: Status, attempts: nat, error: bool)

  /** What a send attempt came to: delivered and reported so, refused, or delivered although the
      call raised. */
  datatype Report = Delivered | Refused | Lost

  predicate Waiting(n: Notice) {
    n.status == Pending || n.status == Failed
  }

  // ------------------------------------------------------------------ one dispatcher

  /** How many notices wait before index `i`. */
  function WaitingBefore(notices: seq<Notice>, i: nat): nat
    requires i <= |notices|
  {
    if i == 0 then 0 else WaitingBefore(notices, i - 1) + (if Waiting(notices[i - 1]) then 1 else 0)
  }

  /** How many of the first `n` attempts are delivered before one is not. */
  function Leading(mail: nat -> Report, n: nat): (k: nat)
    ensures k <= n && (forall j :: 0 <= j < k ==> mail(j) == Delivered) && (k < n ==> mail(k) != Delivered)
  {
    LeadingFrom(mail, n, 0)
  }

  function LeadingFrom(mail: nat -> Report, n: nat, k: nat): (r: nat)
    requires k <= n
    ensures k <= r <= n && (forall j :: k <= j < r ==> mail(j) == Delivered) && (r < n ==> mail(r) != Delivered)
    decreases n - k
  {
    if k == n || mail(k) != Delivered then k else LeadingFrom(mail, n, k + 1)
  }

  function SentNotice(n: Notice): Notice {
    Notice(Sent, n.attempts + 1, false)
  }

  function FailedNotice(n: Notice): Notice {
    Notice(Failed, n.attempts + 1, true)
  }

  /** The notice at `i` after the first `sent` waiting notices were sent and, if `stopped`, the next
      one failed. */
  function Dispatched(notices: seq<Notice>, i: nat, sent: nat, stopped: bool): Notice
    requires i < |notices|
  {
    var n := notices[i];
    if !Waiting(n) then n
    else if WaitingBefore(notices, i) < sent then SentNotice(n)
    else if WaitingBefore(notices, i) == sent && stopped then FailedNotice(n)
    else n
  }

  lemma {:induction false} WaitingGrows(notices: seq<Notice>, i: nat, j: nat)
    requires i <= j <= |notices|
    ensures WaitingBefore(notices, i) <= WaitingBefore(notices, j)
    decreases j
  {
    if i < j {
      WaitingGrows(notices, i, j - 1);
    }
  }

  /** When nothing before `i` waits any more, no more than the sent ones waited there. */
  lemma {:induction false} RankBound(was: seq<Notice>, now: seq<Notice>, i: nat, sent: nat)
    requires |now| == |was| && i <= |was|
    requires forall k :: 0 <= k < |was| ==> now[k] == Dispatched(was, k, sent, false)
    requires forall k :: 0 <= k < i ==> !Waiting(now[k])
    ensures WaitingBefore(was, i) <= sent
    decreases i
  {
    if i > 0 {
      RankBound(was, now, i - 1, sent);
      assert now[i - 1] == Dispatched(was, i - 1, sent, false);
    }
  }

  class Outbox {
    var notices: seq<Notice>

    constructor (notices: seq<Notice>)
      ensures this.notices == notices
    {
      this.notices := notices;
    }

    /** The oldest waiting notice. */
    method Oldest() returns (found: Option<nat>)
      ensures found.Some? ==> found.value < |notices| && Waiting(notices[found.value])
      ensures forall i :: 0 <= i < (if found.Some? then found.value else |notices|) ==> !Waiting(notices[i])
    {
      var i := 0;
      while i < |notices|
        invariant i <= |notices|
        invariant forall j :: 0 <= j < i ==> !Waiting(notices[j])
      {
        if Waiting(notices[i]) {
          return Some(i);
        }
        i := i + 1;
      }
      found := None;
    }

    /** Claim the oldest waiting notice, send it, record what happened, and stop at the first
        failure. `mail(k)` is the report of the k-th attempt. The notices sent are exactly the
        oldest waiting ones, as many as attempts are delivered in a row; the next one, if the run
        was stopped, is marked failed; nothing else changes; and the result counts those sent. */
    method Dispatch(mail: nat -> Report) returns (sentCount: nat)
      modifies this
      ensures var n := WaitingBefore(old(notices), |old(notices)|);
              && sentCount == Leading(mail, n)
              && |notices| == |old(notices)|
              && forall i :: 0 <= i < |notices| ==> notices[i] == Dispatched(old(notices), i, sentCount, sentCount < n)
    {
      ghost var was := notices;
      ghost var n := WaitingBefore(was, |was|);
      sentCount := 0;
      while true
        invariant |notices| == |was| && sentCount <= n
        invariant forall i :: 0 <= i < |was| ==> notices[i] == Dispatched(was, i, sentCount, false)
        invariant forall j :: 0 <= j < sentCount ==> mail(j) == Delivered
        decreases n - sentCount
      {
        var found := Oldest();
        if found.None? {
          RankBound(was, notices, |was|, sentCount);
          return;
        }
        var i := found.value;
        NextRank(was, notices, i, sentCount);
        notices := notices[i := notices[i].(status := Sending, attempts := notices[i].attempts + 1, error := false)];
        if mail(sentCount) != Delivered {
          notices := notices[i := notices[i].(status := Failed, error := true)];
          OneMore(was, notices, i, sentCount);
          return;
        }
        notices := notices[i := notices[i].(status := Sent)];
        OneMore(was, notices, i, sentCount);
        sentCount := sentCount + 1;
      }
    }
  }

  /** The oldest notice still waiting has exactly the sent ones before it. */
  lemma NextRank(was: seq<Notice>, now: seq<Notice>, i: nat, sent: nat)
    requires |now| == |was| && i < |was| && Waiting(now[i])
    requires forall k :: 0 <= k < |was| ==> now[k] == Dispatched(was, k, sent, false)
    requires forall k :: 0 <= k < i ==> !Waiting(now[k])
    ensures now[i] == was[i] && Waiting(was[i]) && WaitingBefore(was, i) == sent < WaitingBefore(was, |was|)
  {
    assert now[i] == Dispatched(was, i, sent, false);
    RankBound(was, now, i, sent);
    WaitingGrows(was, i + 1, |was|);
  }

  /** No two waiting notices have the same number before them. */
  lemma OneMore(was: seq<Notice>, now: seq<Notice>, i: nat, sent: nat)
    requires |now| == |was| && i < |was| && Waiting(was[i]) && WaitingBefore(was, i) == sent
    requires forall k :: 0 <= k < |was| && k != i ==> now[k] == Dispatched(was, k, sent, false)
    ensures now[i] == SentNotice(was[i]) ==> forall k :: 0 <= k < |was| ==>
              now[k] == Dispatched(was, k, sent + 1, false)
    ensures now[i] == FailedNotice(was[i]) ==> forall k :: 0 <= k < |was| ==> now[k] == Dispatched(was, k, sent, true)
  {
    forall k | 0 <= k < |was| && k != i && Waiting(was[k]) ensures WaitingBefore(was, k) != sent {
      if k < i {
        WaitingGrows(was, k + 1, i);
      } else {
        WaitingGrows(was, i + 1, k);
      }
    }
  }

  // ----------------------------------------------------------- many dispatchers, crashes

  /** Where a dispatcher is between its commits. */
  datatype Step = Claimed(i: nat) | Mailed(i: nat, ok: bool)

  /** What the mail service did for a notice. Nothing reads it. */
  datatype Tally = Tally(reported: nat, lost: nat, refused: nat)

  datatype State = State(notices: seq<Notice>, tallies: seq<Tally>, steps: map<nat, Step>)

  datatype Event =
    | Claim(d: nat, i: nat)
    | Mail(d: nat, report: Report)
    | Record(d: nat)
    | Crash(d: nat)

  /** `count` notices are all the run will ever see; one not yet written is one not claimed yet. */
  function Started(count: nat): State {
    State(seq(count, i => Notice(Pending, 0, false)), seq(count, i => Tally(0, 0, 0)), map[])
  }

  function Counted(t: Tally, report: Report): Tally {
    match report
    case Delivered => t.(reported := t.reported + 1)
    case Lost => t.(lost := t.lost + 1)
    case Refused => t.(refused := t.refused + 1)
  }

  /** One commit or one send; an event that is not possible changes nothing. Rows that other
      dispatchers hold locked are skipped, so a claim may take any waiting notice. */
  function Next(s: State, e: Event): State {
    match e
    case Claim(d, i) =>
      if d in s.steps || i >= |s.notices| || !Waiting(s.notices[i]) then s
      else s.(notices := s.notices[i := Notice(Sending, s.notices[i].attempts + 1, false)],
          steps := s.steps[d := Claimed(i)])
    case Mail(d, report) =>
      if d in s.steps && s.steps[d].Claimed? && s.steps[d].i < |s.tallies| then
        var i := s.steps[d].i;
        s.(tallies := s.tallies[i := Counted(s.tallies[i], report)],
            steps := s.steps[d := Mailed(i, report == Delivered)])
      else s
    case Record(d) =>
      if d in s.steps && s.steps[d].Mailed? && s.steps[d].i < |s.notices| then
        var i := s.steps[d].i;
        s.(notices := s.notices[i := if s.steps[d].ok then s.notices[i].(status := Sent)
                                     else s.notices[i].(status := Failed, error := true)],
           steps := s.steps - {d})
      else s
    case Crash(d) => s.(steps := s.steps - {d})
  }

  function After(s: State, trace: seq<Event>): State {
    if trace == [] then s
    else Next(After(s, trace[..|trace| - 1]), trace[|trace| - 1])
  }

  /** A notice still to send has never been reported sent; a sent one exactly once; each attempt
      but the one under way, or one cut short by a crash, reached the mail service. */
  predicate NoticeSound(n: Notice, t: Tally) {
    && (n.error <==> n.status == Failed)
    && (Waiting(n) ==> t.reported == 0 && n.attempts == t.lost + t.refused)
    && (n.status == Sent ==> t.reported == 1 && n.attempts == 1 + t.lost + t.refused)
    && (n.status == Sending ==> t.reported <= 1 && t.reported + t.lost + t.refused <= n.attempts)
  }

  predicate StepSound(n: Notice, t: Tally, step: Step) {
    && n.status == Sending
    && (step.Claimed? ==> t.reported == 0 && n.attempts == 1 + t.lost + t.refused)
    && (step.Mailed? ==> t.reported == (if step.ok then 1 else 0) && n.attempts == t.reported + t.lost + t.refused)
  }

  predicate Sound(s: State) {
    && |s.tallies| == |s.notices|
    && (forall i :: 0 <= i < |s.notices| ==> NoticeSound(s.notices[i], s.tallies[i]))
    && (forall d :: d in s.steps ==>
          s.steps[d].i < |s.notices| && StepSound(s.notices[s.steps[d].i], s.tallies[s.steps[d].i], s.steps[d]))
    && (forall d, c :: d in s.steps && c in s.steps && s.steps[d].i == s.steps[c].i ==> d == c)
  }

  /** What one event does to the rows: one notice changes, with its tally and its dispatcher. */
  predicate Touches(s: State, i: nat, d: nat, n: Notice, t: Tally, after: State) {
    && i < |s.notices| == |s.tallies|
    && after.notices == s.notices[i := n] && after.tallies == s.tallies[i := t]
    && NoticeSound(n, t)
    && (d in s.steps ==> s.steps[d].i == i)
    && (if d in after.steps
        then after.steps == s.steps[d := after.steps[d]] && after.steps[d].i == i && StepSound(n, t, after.steps[d])
        else after.steps == s.steps - {d})
    && (forall c :: c in s.steps && c != d ==> s.steps[c].i != i)
  }

  lemma TouchKeepsSound(s: State, i: nat, d: nat, n: Notice, t: Tally, after: State)
    requires Sound(s) && Touches(s, i, d, n, t, after)
    ensures Sound(after)
  {
    forall c | c in after.steps && c != d
      ensures StepSound(after.notices[after.steps[c].i], after.tallies[after.steps[c].i], after.steps[c])
    {
      assert StepSound(s.notices[s.steps[c].i], s.tallies[s.steps[c].i], s.steps[c]);
    }
  }

  lemma EventTouches(s: State, e: Event, after: State) returns (i: nat, n: Notice, t: Tally)
    requires Sound(s) && after == Next(s, e) && after != s && !e.Crash?
    ensures Touches(s, i, e.d, n, t, after)
  {
    i := if e.Claim? then e.i else s.steps[e.d].i;
    n, t := after.notices[i], after.tallies[i];
    assert NoticeSound(s.notices[i], s.tallies[i]);
    if !e.Claim? {
      assert StepSound(s.notices[i], s.tallies[i], s.steps[e.d]);
    } else {
      forall c | c in s.steps ensures s.steps[c].i != i {
        assert StepSound(s.notices[s.steps[c].i], s.tallies[s.steps[c].i], s.steps[c]);
      }
    }
    assert s.notices[i := n] == after.notices && s.tallies[i := t] == after.tallies;
  }

  lemma StepKeepsSound(s: State, e: Event, after: State)
    requires Sound(s) && after == Next(s, e)
    ensures Sound(after)
  {
    if e.Crash? {
      CrashKeepsSound(s, e.d, after);
    } else if after != s {
      var i, n, t := EventTouches(s, e, after);
      TouchKeepsSound(s, i, e.d, n, t, after);
    }
  }

  lemma CrashKeepsSound(s: State, d: nat, after: State)
    requires Sound(s) && after == s.(steps := s.steps - {d})
    ensures Sound(after)
  {
  }

  lemma {:induction false} EveryRunSound(count: nat, trace: seq<Event>) returns (s: State)
    ensures s == After(Started(count), trace) && Sound(s)
    decreases |trace|
  {
    s := After(Started(count), trace);
    if trace != [] {
      var before := EveryRunSound(count, trace[..|trace| - 1]);
      StepKeepsSound(before, trace[|trace| - 1], s);
    }
  }

  /** Over every run with any number of dispatchers and crashes: no notice is reported sent more
      than once, a sent one exactly once, one that is pending or failed never; and its count covers
      every attempt that reached the mail service. */
  lemma AtMostOneSend(count: nat, trace: seq<Event>, i: nat) returns (s: State)
    requires i < count
    ensures s == After(Started(count), trace) && |s.notices| == |s.tallies| == count
    ensures s.tallies[i].reported <= 1
    ensures s.notices[i].status == Sent ==> s.tallies[i].reported == 1
    ensures Waiting(s.notices[i]) ==> s.tallies[i].reported == 0
    ensures s.notices[i].error <==> s.notices[i].status == Failed
    ensures s.tallies[i].reported + s.tallies[i].lost + s.tallies[i].refused <= s.notices[i].attempts
  {
    s := EveryRunSound(count, trace);
    SameLength(count, trace);
    assert NoticeSound(s.notices[i], s.tallies[i]);
  }

  lemma {:induction false} SameLength(count: nat, trace: seq<Event>)
    ensures |After(Started(count), trace).notices| == count
    decreases |trace|
  {
    if trace != [] {
      SameLength(count, trace[..|trace| - 1]);
    }
  }

  /** How often a notice reached its readers, reported or not. */
  function DeliveredTo(s: State, i: nat): nat
    requires i < |s.tallies|
  {
    s.tallies[i].reported + s.tallies[i].lost
  }

  /** An attempt that is not refused, at a notice of which an earlier attempt was lost. */
  predicate DeliversAgain(s: State, e: Event, i: nat) {
    && e.Mail? && e.d in s.steps && s.steps[e.d] == Claimed(i) && i < |s.tallies|
    && e.report != Refused && s.tallies[i].lost >= 1
  }

  /** Exactly which step delivers a notice to readers who already had it. */
  lemma DeliversAgainIff(s: State, e: Event, i: nat, after: State)
    requires Sound(s) && i < |s.notices| && after == Next(s, e)
    ensures |after.tallies| == |s.tallies| && DeliveredTo(s, i) <= DeliveredTo(after, i) <= DeliveredTo(s, i) + 1
    ensures DeliveredTo(s, i) >= 1 && DeliveredTo(after, i) > DeliveredTo(s, i) <==> DeliversAgain(s, e, i)
  {
    if e.Mail? && e.d in s.steps {
      assert StepSound(s.notices[s.steps[e.d].i], s.tallies[s.steps[e.d].i], s.steps[e.d]);
    }
  }

  /** Some step of the run delivers the notice again. */
  predicate SomeDeliversAgain(count: nat, trace: seq<Event>, i: nat) {
    trace != [] &&
    (var n := |trace| - 1;
     SomeDeliversAgain(count, trace[..n], i) || DeliversAgain(After(Started(count), trace[..n]), trace[n], i))
  }

  /** Over every run: a notice was delivered more than once if and only if some attempt at it was
      not refused although an earlier one had been delivered and raised. */
  lemma {:induction false} DuplicateIff(count: nat, trace: seq<Event>, i: nat) returns (s: State)
    requires i < count
    ensures s == After(Started(count), trace) && Sound(s) && |s.notices| == count
    ensures DeliveredTo(s, i) > 1 <==> SomeDeliversAgain(count, trace, i)
    decreases |trace|
  {
    s := EveryRunSound(count, trace);
    SameLength(count, trace);
    if trace != [] {
      var n := |trace| - 1;
      var before := DuplicateIff(count, trace[..n], i);
      DeliversAgainIff(before, trace[n], i, s);
    }
  }

  lemma OneAttempt(start: State, trace: seq<Event>, s: State, d: nat, report: Report)
    returns (longer: seq<Event>, after: State)
    requires s == After(start, trace) && s.steps == map[] && |s.notices| == |s.tallies| == 1 && Waiting(s.notices[0])
    ensures longer == trace + [Claim(d, 0), Mail(d, report), Record(d)] && after == After(start, longer)
    ensures after == State([if report == Delivered then SentNotice(s.notices[0]) else FailedNotice(s.notices[0])],
                           [Counted(s.tallies[0], report)], map[])
  {
    var t1, t2 := trace + [Claim(d, 0)], trace + [Claim(d, 0), Mail(d, report)];
    longer := trace + [Claim(d, 0), Mail(d, report), Record(d)];
    assert t1[..|trace|] == trace && t2[..|t1|] == t1 && longer[..|t2|] == t2;
    var s1 := Next(s, Claim(d, 0));
    var s2 := Next(s1, Mail(d, report));
    assert After(start, t1) == s1;
    assert After(start, t2) == s2;
    assert s1 == State([Notice(Sending, s.notices[0].attempts + 1, false)], s.tallies, map[d := Claimed(0)]);
    assert s2.tallies == [Counted(s.tallies[0], report)];
    after := Next(s2, Record(d));
  }

  /** That does happen: an attempt that raises after delivering is tried again. */
  lemma LostIsSentAgain() returns (trace: seq<Event>, s: State)
    ensures s == After(Started(1), trace)
    ensures s.notices == [Notice(Sent, 2, false)] && s.tallies == [Tally(1, 1, 0)]
  {
    trace, s := OneAttempt(Started(1), [], Started(1), 0, Lost);
    trace, s := OneAttempt(Started(1), trace, s, 1, Delivered);
  }

  predicate Abandoned(s: State, i: nat) {
    && i < |s.notices| && s.notices[i].status == Sending
    && (forall d :: d in s.steps ==> s.steps[d].i != i)
  }

  lemma AbandonedStep(s: State, e: Event, i: nat, after: State)
    requires Sound(s) && Abandoned(s, i) && after == Next(s, e)
    ensures Abandoned(after, i) && |after.notices| == |s.notices| && |after.tallies| == |s.tallies|
    ensures after.notices[i] == s.notices[i] && after.tallies[i] == s.tallies[i]
  {
  }

  /** A crash while sending never leads to another send: a notice that is sending with no dispatcher
      at work on it stays exactly as it is. */
  lemma {:induction false} AbandonedStays(s: State, trace: seq<Event>, i: nat) returns (late: State)
    requires Sound(s) && Abandoned(s, i)
    ensures late == After(s, trace) && Sound(late) && Abandoned(late, i)
    ensures late.notices[i] == s.notices[i] && late.tallies[i] == s.tallies[i]
    decreases |trace|
  {
    late := After(s, trace);
    if trace != [] {
      var e := trace[|trace| - 1];
      var before := AbandonedStays(s, trace[..|trace| - 1], i);
      StepKeepsSound(before, e, late);
      AbandonedStep(before, e, i, late);
    }
  }
}
