/** The nine-check evaluator: four content checks, four required-document checks and the
    missing-documents marker, with the reason codes and the status they add up to. */
module Reconciliation {
  import opened Options
  import opened Documents
  import opened MissingDocuments

  datatype ReconStatus = Pending | Partial | Exceptional | Reconciled

  /** What each slot's document says, after any rate-confirmation override. */
  datatype Evidence = Evidence(
    invoice: Option<Extraction>,
    rateCon: Option<Extraction>,
    bol: Option<Extraction>,
    pod: Option<Extraction>)

  datatype Evaluation = Evaluation(
    checks: seq<Check>,
    missing: seq<DocKind>,
    reasons: seq<Reason>,
    status: ReconStatus)

  // ------------------------------------------------------- reading the documents

  function FirstReadable(candidates: seq<Amount>): Option<int> {
    if candidates == [] then None
    else if candidates[0].Cents? then Some(candidates[0].cents)
    else FirstReadable(candidates[1..])
  }

  function InvoiceTotal(doc: Option<Extraction>): Option<int> {
    match doc
    case None => None
    case Some(x) => FirstReadable([x.totalAmount, x.invoiceTotal])
  }

  function AgreedRate(doc: Option<Extraction>): Option<int> {
    match doc
    case None => None
    case Some(x) => FirstReadable([x.agreedRate, x.totalAmount, x.rate])
  }

  function Carrier(doc: Option<Extraction>): string {
    match doc case None => "" case Some(x) => x.carrier
  }

  /** The first date that is present decides, even when it does not parse. */
  function ParsedOf(first: Date, second: Date): Option<int> {
    var chosen := if first == NoDate then second else first;
    if chosen.Day? then Some(chosen.day) else None
  }

  function PickupDay(bol: Option<Extraction>): Option<int> {
    match bol case None => None case Some(x) => ParsedOf(x.pickupDate, x.shipmentDate)
  }

  function ShipDay(rateCon: Option<Extraction>): Option<int> {
    match rateCon case None => None case Some(x) => ParsedOf(x.shipmentDate, x.invoiceDate)
  }

  function Delivered(pod: Option<Extraction>): bool {
    match pod case None => false case Some(x) => x.deliveryDate != NoDate && x.condition != ""
  }

  function Abs(x: int): nat {
    if x < 0 then -x else x
  }

  /** The five-percent rule in whole cents. */
  predicate WithinTolerance(invoice: int, rate: int) {
    20 * Abs(invoice - rate) <= Abs(rate)
  }

  // ------------------------------------------------------------------ evaluation

  function Judged(name: CheckName, evaluated: bool, ok: bool, reason: Reason): Check {
    if !evaluated then Check(name, NotEvaluated, None)
    else if ok then Check(name, Passed, None)
    else Check(name, Failed, Some(reason))
  }

  function JudgeAmount(e: Evidence): Check {
    var total, rate := InvoiceTotal(e.invoice), AgreedRate(e.rateCon);
    var priced := total.Some? && rate.Some?;
    Judged(AmountCheck, priced, priced && WithinTolerance(total.value, rate.value), AmountVariance)
  }

  function JudgeCarrier(e: Evidence): Check {
    var named := Carrier(e.invoice) != "" && Carrier(e.rateCon) != "";
    Judged(CarrierCheck, named, Carrier(e.invoice) == Carrier(e.rateCon), CarrierMismatch)
  }

  function JudgePickup(e: Evidence): Check {
    var pickup, ship := PickupDay(e.bol), ShipDay(e.rateCon);
    var dated := pickup.Some? && ship.Some?;
    Judged(PickupDateCheck, dated, dated && Abs(pickup.value - ship.value) <= 1, PickupDateMismatch)
  }

  function JudgePod(e: Evidence, has: set<DocKind>): Check {
    Judged(PodCheck, Pod in has, Delivered(e.pod), PodIncomplete)
  }

  function ContentChecks(e: Evidence, has: set<DocKind>): seq<Check> {
    [JudgeAmount(e), JudgeCarrier(e), JudgePickup(e), JudgePod(e, has)]
  }

  // ------------------------------------------------------ what the checks compare

  /** The invoice's total: its total amount, else its invoice total. */
  predicate Totals(invoice: Option<Extraction>, cents: int) {
    && invoice.Some?
    && var x := invoice.value;
       || x.totalAmount == Cents(cents)
       || (!x.totalAmount.Cents? && x.invoiceTotal == Cents(cents))
  }

  /** The agreed rate: the agreed rate itself, else the total amount, else the rate. */
  predicate Rates(rateCon: Option<Extraction>, cents: int) {
    && rateCon.Some?
    && var x := rateCon.value;
       || x.agreedRate == Cents(cents)
       || (!x.agreedRate.Cents? && x.totalAmount == Cents(cents))
       || (!x.agreedRate.Cents? && !x.totalAmount.Cents? && x.rate == Cents(cents))
  }

  /** The bill of lading's pickup date, or its shipment date when it names no pickup date. */
  predicate PicksUp(bol: Option<Extraction>, day: int) {
    && bol.Some?
    && (bol.value.pickupDate == Day(day) || (bol.value.pickupDate == NoDate && bol.value.shipmentDate == Day(day)))
  }

  /** The rate confirmation's shipment date, or its invoice date when it names no shipment date. */
  predicate Ships(rateCon: Option<Extraction>, day: int) {
    && rateCon.Some?
    && (|| rateCon.value.shipmentDate == Day(day)
        || (rateCon.value.shipmentDate == NoDate && rateCon.value.invoiceDate == Day(day)))
  }

  /** The amounts are compared when both can be read, and differ by more than a twentieth of the rate
      exactly when the check fails. */
  ghost predicate AmountFits(e: Evidence, c: Check) {
    && c.name == AmountCheck
    && (c.outcome == NotEvaluated <==>
          || e.invoice.None? || (!e.invoice.value.totalAmount.Cents? && !e.invoice.value.invoiceTotal.Cents?)
          || e.rateCon.None?
          || (var x := e.rateCon.value; !x.agreedRate.Cents? && !x.totalAmount.Cents? && !x.rate.Cents?))
    && (forall total, rate :: Totals(e.invoice, total) && Rates(e.rateCon, rate) ==>
          (c.outcome == Failed <==>
             20 * (if total < rate then rate - total else total - rate) > (if rate < 0 then -rate else rate)))
    && c.reason == (if c.outcome == Failed then Some(AmountVariance) else None)
  }

  predicate CarrierFits(e: Evidence, c: Check) {
    var named := e.invoice.Some? && e.invoice.value.carrier != "" && e.rateCon.Some? && e.rateCon.value.carrier != "";
    && c.name == CarrierCheck
    && (c.outcome == NotEvaluated <==> !named)
    && (c.outcome == Failed <==> named && e.invoice.value.carrier != e.rateCon.value.carrier)
    && c.reason == (if c.outcome == Failed then Some(CarrierMismatch) else None)
  }

  /** Both dates can be read, and are more than one day apart exactly when the check fails. */
  ghost predicate PickupFits(e: Evidence, c: Check) {
    && c.name == PickupDateCheck
    && (c.outcome == NotEvaluated <==> (forall day :: !PicksUp(e.bol, day)) || (forall day :: !Ships(e.rateCon, day)))
    && (forall pickup, ship :: PicksUp(e.bol, pickup) && Ships(e.rateCon, ship) ==>
          (c.outcome == Failed <==> pickup > ship + 1 || pickup < ship - 1))
    && c.reason == (if c.outcome == Failed then Some(PickupDateMismatch) else None)
  }

  /** A proof of delivery is complete with a delivery date, readable or not, and a condition. */
  predicate PodFits(e: Evidence, has: set<DocKind>, c: Check) {
    && c.name == PodCheck
    && (c.outcome == NotEvaluated <==> Pod !in has)
    && (c.outcome == Failed <==>
          Pod in has && (e.pod.None? || e.pod.value.deliveryDate == NoDate || e.pod.value.condition == ""))
    && c.reason == (if c.outcome == Failed then Some(PodIncomplete) else None)
  }

  /** A required document's check passes when it is there, and fails when it is not by the deadline. */
  predicate RequiredFits(kind: DocKind, has: set<DocKind>, deadline: int, now: int, c: Check) {
    && c.name == RequiredCheck(kind)
    && (c.outcome == Passed <==> kind in has)
    && (c.outcome == Failed <==> kind !in has && now >= deadline)
    && c.reason == (if c.outcome == Failed then Some(Overdue(kind)) else None)
  }

  ghost predicate ContentFits(e: Evidence, has: set<DocKind>, checks: seq<Check>)
    requires |checks| >= 4
  {
    AmountFits(e, checks[0]) && CarrierFits(e, checks[1]) && PickupFits(e, checks[2]) && PodFits(e, has, checks[3])
  }

  lemma ReadsFirst(a: Amount, b: Amount, c: Amount)
    ensures FirstReadable([c]) == if c.Cents? then Some(c.cents) else None
    ensures FirstReadable([b, c]) == if b.Cents? then Some(b.cents) else FirstReadable([c])
    ensures FirstReadable([a, b, c]) == if a.Cents? then Some(a.cents) else FirstReadable([b, c])
  {
    assert [c][1..] == [] && [b, c][1..] == [c] && [a, b, c][1..] == [b, c];
  }

  lemma AmountMeans(e: Evidence)
    ensures AmountFits(e, JudgeAmount(e))
  {
    if e.invoice.Some? {
      var x := e.invoice.value;
      ReadsFirst(NoAmount, x.totalAmount, x.invoiceTotal);
    }
    if e.rateCon.Some? {
      var x := e.rateCon.value;
      ReadsFirst(x.agreedRate, x.totalAmount, x.rate);
    }
  }

  lemma PickupMeans(e: Evidence)
    ensures PickupFits(e, JudgePickup(e))
  {
    var pickup, ship := PickupDay(e.bol), ShipDay(e.rateCon);
    assert pickup.Some? ==> PicksUp(e.bol, pickup.value);
    assert ship.Some? ==> Ships(e.rateCon, ship.value);
  }

  /** Each content check compares what it should. */
  lemma ContentMeans(e: Evidence, has: set<DocKind>)
    ensures ContentFits(e, has, ContentChecks(e, has))
  {
    AmountMeans(e);
    PickupMeans(e);
  }

  /** The reason codes of the failed checks, in order: what the reason list is for. */
  function FailedReasons(checks: seq<Check>): seq<Reason> {
    if checks == [] then []
    else
      var n := |checks| - 1;
      FailedReasons(checks[..n])
        + (if checks[n].outcome == Failed && checks[n].reason.Some? then [checks[n].reason.value] else [])
  }

  function MarkerCheck(missing: seq<DocKind>): Check {
    Check(MissingDocsCheck, if missing != [] then NotEvaluated else Passed, None)
  }

  function StatusFor(checks: seq<Check>, missing: seq<DocKind>, reasons: seq<Reason>): ReconStatus {
    if reasons != [] then Exceptional
    else if missing != [] || exists i :: 0 <= i < |checks| && checks[i].outcome == NotEvaluated then Partial
    else Reconciled
  }

  function Evaluate(e: Evidence, has: set<DocKind>, created: int, now: int, sla: int): Evaluation {
    var policy := PolicyFor(REQUIRED, has, created, now, sla);
    var content := ContentChecks(e, has);
    var checks := content + policy.checks + [MarkerCheck(policy.missing)];
    var reasons := FailedReasons(content) + policy.reasons;
    Evaluation(checks, policy.missing, reasons, StatusFor(checks, policy.missing, reasons))
  }

  /** The two lists `_check` appends to while a shipment is evaluated. */
  class CheckLists {
    var checks: seq<Check>
    var reasons: seq<Reason>

    constructor ()
      ensures checks == [] && reasons == []
    {
      checks, reasons := [], [];
    }

    method Add(name: CheckName, outcome: Outcome, reason: Option<Reason>)
      requires outcome == Failed ==> reason.Some?
      modifies this
      ensures checks == old(checks) + [Check(name, outcome, if outcome == Failed then reason else None)]
      ensures reasons == old(reasons) + (if outcome == Failed then [reason.value] else [])
      ensures old(reasons == FailedReasons(checks)) ==> reasons == FailedReasons(checks)
    {
      FailedReasonsAppend(checks, Check(name, outcome, if outcome == Failed then reason else None));
      checks := checks + [Check(name, outcome, if outcome == Failed then reason else None)];
      if outcome == Failed {
        reasons := reasons + [reason.value];
      }
    }

    method AddAmountCheck(e: Evidence)
      modifies this
      ensures checks == old(checks) + [JudgeAmount(e)]
      ensures old(reasons == FailedReasons(checks)) ==> reasons == FailedReasons(checks)
    {
      var total, rate := InvoiceTotal(e.invoice), AgreedRate(e.rateCon);
      if total.None? || rate.None? {
        Add(AmountCheck, NotEvaluated, None);
      } else {
        var passed := WithinTolerance(total.value, rate.value);
        Add(AmountCheck, if passed then Passed else Failed, Some(AmountVariance));
      }
    }

    method AddCarrierCheck(e: Evidence)
      modifies this
      ensures checks == old(checks) + [JudgeCarrier(e)]
      ensures old(reasons == FailedReasons(checks)) ==> reasons == FailedReasons(checks)
    {
      if Carrier(e.invoice) == "" || Carrier(e.rateCon) == "" {
        Add(CarrierCheck, NotEvaluated, None);
      } else {
        Add(CarrierCheck, if Carrier(e.invoice) == Carrier(e.rateCon) then Passed else Failed, Some(CarrierMismatch));
      }
    }

    method AddPickupCheck(e: Evidence)
      modifies this
      ensures checks == old(checks) + [JudgePickup(e)]
      ensures old(reasons == FailedReasons(checks)) ==> reasons == FailedReasons(checks)
    {
      var pickup, ship := PickupDay(e.bol), ShipDay(e.rateCon);
      if pickup.None? || ship.None? {
        Add(PickupDateCheck, NotEvaluated, None);
      } else {
        var passed := Abs(pickup.value - ship.value) <= 1;
        Add(PickupDateCheck, if passed then Passed else Failed, Some(PickupDateMismatch));
      }
    }

    method AddPodCheck(e: Evidence, has: set<DocKind>)
      modifies this
      ensures checks == old(checks) + [JudgePod(e, has)]
      ensures old(reasons == FailedReasons(checks)) ==> reasons == FailedReasons(checks)
    {
      if Pod in has {
        Add(PodCheck, if Delivered(e.pod) then Passed else Failed, Some(PodIncomplete));
      } else {
        Add(PodCheck, NotEvaluated, None);
      }
    }

    method AddContentChecks(e: Evidence, has: set<DocKind>)
      requires checks == [] && reasons == []
      modifies this
      ensures checks == ContentChecks(e, has) && ContentFits(e, has, checks)
      ensures reasons == FailedReasons(checks)
    {
      ContentMeans(e, has);
      AddAmountCheck(e);
      AddCarrierCheck(e);
      AddPickupCheck(e);
      AddPodCheck(e, has);
    }
  }

  lemma FailedReasonsAppend(checks: seq<Check>, last: Check)
    ensures FailedReasons(checks + [last])
         == FailedReasons(checks)
              + (if last.outcome == Failed && last.reason.Some? then [last.reason.value] else [])
  {
    assert (checks + [last])[..|checks|] == checks;
  }

  method Classify(checks: seq<Check>, missing: seq<DocKind>, reasons: seq<Reason>) returns (status: ReconStatus)
    ensures status == StatusFor(checks, missing, reasons)
  {
    if reasons != [] {
      return Exceptional;
    }
    var open := missing != [];
    var i := 0;
    while !open && i < |checks|
      invariant 0 <= i <= |checks|
      invariant open ==> missing != [] || exists k :: 0 <= k < |checks| && checks[k].outcome == NotEvaluated
      invariant !open ==> missing == [] && forall k :: 0 <= k < i ==> checks[k].outcome != NotEvaluated
    {
      open := checks[i].outcome == NotEvaluated;
      i := i + 1;
    }
    status := if open then Partial else Reconciled;
  }

  /** The evaluation as `reconcile_shipment` performs it, list by list. */
  method EvaluateShipment(e: Evidence, has: set<DocKind>, created: int, now: int, sla: int)
    returns (result: Evaluation, policy: Policy)
    ensures result == Evaluate(e, has, created, now, sla)
    ensures policy == PolicyFor(REQUIRED, has, created, now, sla)
    ensures EvaluationFits(e, has, created + sla, now, result)
  {
    EvaluationMeans(e, has, created, now, sla);
    var lists := new CheckLists();
    lists.AddContentChecks(e, has);
    policy := EvaluatePolicy(REQUIRED, has, created, now, sla);
    var missing := policy.missing;
    lists.checks := lists.checks + policy.checks;
    lists.reasons := lists.reasons + policy.reasons;
    lists.Add(MissingDocsCheck, if missing != [] then NotEvaluated else Passed, None);

    var status := Classify(lists.checks, missing, lists.reasons);
    result := Evaluation(lists.checks, missing, lists.reasons, status);
  }

  // ------------------------------------------------- reasons, status and review

  lemma {:induction false} FailedReasonsConcat(a: seq<Check>, b: seq<Check>)
    ensures FailedReasons(a + b) == FailedReasons(a) + FailedReasons(b)
    decreases |b|
  {
    if b == [] {
      assert a + b == a;
    } else {
      var n := |b| - 1;
      assert (a + b)[..|a| + n] == a + b[..n];
      FailedReasonsConcat(a, b[..n]);
    }
  }

  lemma RequiredReasonsStep(shorter: seq<Check>, missing: seq<DocKind>, kind: DocKind, has: set<DocKind>, overdue: bool)
    requires FailedReasons(shorter) == if overdue then OverdueReasons(missing) else []
    ensures FailedReasons(shorter + [RequiredOutcome(kind, has, overdue)])
         == if overdue then OverdueReasons(missing + (if kind in has then [] else [kind])) else []
  {
    FailedReasonsAppend(shorter, RequiredOutcome(kind, has, overdue));
    assert (missing + [kind])[..|missing|] == missing;
    assert missing + [] == missing;
  }

  lemma {:induction false} RequiredReasons(kinds: seq<DocKind>, has: set<DocKind>, overdue: bool)
    ensures FailedReasons(RequiredChecks(kinds, has, overdue))
         == if overdue then OverdueReasons(Missing(kinds, has)) else []
  {
    if kinds != [] {
      var n := |kinds| - 1;
      RequiredReasons(kinds[..n], has, overdue);
      RequiredReasonsStep(RequiredChecks(kinds[..n], has, overdue), Missing(kinds[..n], has), kinds[n], has, overdue);
    }
  }

  /** `exception_reasons` is exactly the in-order list of the failed checks' reason codes. */
  lemma ReasonsAreFailedChecks(e: Evidence, has: set<DocKind>, created: int, now: int, sla: int)
    ensures var v := Evaluate(e, has, created, now, sla);
            v.reasons == FailedReasons(v.checks) && |v.checks| == 9
  {
    var policy := PolicyFor(REQUIRED, has, created, now, sla);
    var content := ContentChecks(e, has);
    var overdue := policy.missing != [] && now >= created + sla;
    RequiredReasons(REQUIRED, has, overdue);
    RequiredExplained(REQUIRED, has, overdue);
    FailedReasonsConcat(content, policy.checks);
    FailedReasonsAppend(content + policy.checks, MarkerCheck(policy.missing));
  }

  predicate AnyOutcome(checks: seq<Check>, outcome: Outcome) {
    exists i :: 0 <= i < |checks| && checks[i].outcome == outcome
  }

  predicate AllPassed(checks: seq<Check>) {
    forall i :: 0 <= i < |checks| ==> checks[i].outcome == Passed
  }

  predicate Explained(checks: seq<Check>) {
    forall i :: 0 <= i < |checks| ==> (checks[i].outcome == Failed <==> checks[i].reason.Some?)
  }

  lemma {:induction false} FailedReasonsFind(checks: seq<Check>, i: nat)
    requires Explained(checks) && i < |checks| && checks[i].outcome == Failed
    ensures checks[i].reason.value in FailedReasons(checks)
    decreases |checks|
  {
    var n := |checks| - 1;
    if i < n {
      FailedReasonsFind(checks[..n], i);
    }
  }

  lemma {:induction false} FailedReasonsCome(checks: seq<Check>, reason: Reason) returns (i: nat)
    requires reason in FailedReasons(checks)
    ensures i < |checks| && checks[i].outcome == Failed && checks[i].reason == Some(reason)
    decreases |checks|
  {
    var n := |checks| - 1;
    if reason in FailedReasons(checks[..n]) {
      i := FailedReasonsCome(checks[..n], reason);
    } else {
      i := n;
    }
  }

  lemma {:induction false} RequiredExplained(kinds: seq<DocKind>, has: set<DocKind>, overdue: bool)
    ensures Explained(RequiredChecks(kinds, has, overdue))
    ensures |RequiredChecks(kinds, has, overdue)| == |kinds|
    ensures forall i :: 0 <= i < |kinds| ==>
              RequiredChecks(kinds, has, overdue)[i] == RequiredOutcome(kinds[i], has, overdue)
  {
    if kinds != [] {
      RequiredExplained(kinds[..|kinds| - 1], has, overdue);
    }
  }

  lemma ChecksExplained(e: Evidence, has: set<DocKind>, created: int, now: int, sla: int)
    ensures Explained(Evaluate(e, has, created, now, sla).checks)
  {
    var policy := PolicyFor(REQUIRED, has, created, now, sla);
    RequiredExplained(REQUIRED, has, policy.missing != [] && now >= created + sla);
  }

  /** exception iff some check failed, reconciled iff all nine passed, partial otherwise. */
  lemma StatusMeaning(e: Evidence, has: set<DocKind>, created: int, now: int, sla: int)
    ensures var v := Evaluate(e, has, created, now, sla);
            && |v.checks| == 9
            && (v.status == Exceptional <==> AnyOutcome(v.checks, Failed))
            && (v.status == Reconciled <==> AllPassed(v.checks))
            && v.status != Pending
  {
    var v := Evaluate(e, has, created, now, sla);
    ReasonsAreFailedChecks(e, has, created, now, sla);
    ChecksExplained(e, has, created, now, sla);
    if v.reasons != [] {
      var i := FailedReasonsCome(v.checks, v.reasons[0]);
      assert v.checks[i].outcome != Passed;
    } else {
      forall i | 0 <= i < |v.checks| ensures v.checks[i].outcome != Failed {
        if v.checks[i].outcome == Failed { FailedReasonsFind(v.checks, i); }
      }
      if v.missing != [] {
        assert v.checks[8].outcome == NotEvaluated;
      }
    }
  }

  /** The required documents that are not there, in the order of the table. */
  function NotIn(has: set<DocKind>): seq<DocKind> {
    (if Invoice in has then [] else [Invoice]) + (if RateCon in has then [] else [RateCon])
      + (if Bol in has then [] else [Bol]) + (if Pod in has then [] else [Pod])
  }

  lemma RequiredMissing(has: set<DocKind>)
    ensures Missing(REQUIRED, has) == NotIn(has)
  {
    assert REQUIRED[..3] == [Invoice, RateCon, Bol];
    assert [Invoice, RateCon, Bol][..2] == [Invoice, RateCon];
    assert [Invoice, RateCon][..1] == [Invoice];
    assert [Invoice][..0] == [];
    assert Missing([Invoice], has) == if Invoice in has then [] else [Invoice];
    assert Missing([Invoice, RateCon], has) == Missing([Invoice], has) + if RateCon in has then [] else [RateCon];
    assert Missing([Invoice, RateCon, Bol], has) ==
           Missing([Invoice, RateCon], has) + if Bol in has then [] else [Bol];
  }

  lemma RequiredMeans(has: set<DocKind>, created: int, now: int, sla: int)
    ensures var policy := PolicyFor(REQUIRED, has, created, now, sla);
            && |policy.checks| == 4 && policy.missing == NotIn(has)
            && RequiredFits(Invoice, has, created + sla, now, policy.checks[0])
            && RequiredFits(RateCon, has, created + sla, now, policy.checks[1])
            && RequiredFits(Bol, has, created + sla, now, policy.checks[2])
            && RequiredFits(Pod, has, created + sla, now, policy.checks[3])
  {
    RequiredMissing(has);
    RequiredExplained(REQUIRED, has, Missing(REQUIRED, has) != [] && now >= created + sla);
    forall kind | kind in REQUIRED && kind !in has ensures Missing(REQUIRED, has) != [] {
      MissingMembers(REQUIRED, has);
      assert kind in Missing(REQUIRED, has);
    }
  }

  /** The whole evaluation, check by check, from the documents' own fields and the clock: exceptional
      with a failed check, reconciled with nine passed ones, and partial otherwise. */
  ghost predicate EvaluationFits(e: Evidence, has: set<DocKind>, deadline: int, now: int, v: Evaluation) {
    && |v.checks| == 9 && ContentFits(e, has, v.checks)
    && RequiredFits(Invoice, has, deadline, now, v.checks[4])
    && RequiredFits(RateCon, has, deadline, now, v.checks[5])
    && RequiredFits(Bol, has, deadline, now, v.checks[6])
    && RequiredFits(Pod, has, deadline, now, v.checks[7])
    && v.checks[8] ==
         Check(MissingDocsCheck, if {Invoice, RateCon, Bol, Pod} <= has then Passed else NotEvaluated, None)
    && v.missing == NotIn(has)
    && (v.status == Exceptional <==> exists i :: 0 <= i < 9 && v.checks[i].outcome == Failed)
    && (v.status == Reconciled <==> forall i :: 0 <= i < 9 ==> v.checks[i].outcome == Passed)
    && v.status in {Exceptional, Reconciled, Partial}
  }

  lemma EvaluationMeans(e: Evidence, has: set<DocKind>, created: int, now: int, sla: int)
    ensures EvaluationFits(e, has, created + sla, now, Evaluate(e, has, created, now, sla))
  {
    ContentMeans(e, has);
    RequiredMeans(has, created, now, sla);
    StatusMeaning(e, has, created, now, sla);
  }

  function Reviewable(reasons: seq<Reason>): seq<Reason> {
    if reasons == [] then []
    else
      var n := |reasons| - 1;
      Reviewable(reasons[..n]) + (if reasons[n].Overdue? then [] else [reasons[n]])
  }

  lemma {:induction false} ReviewableMembers(reasons: seq<Reason>)
    ensures forall r :: r in Reviewable(reasons) <==> r in reasons && !r.Overdue?
  {
    if reasons != [] {
      var n := |reasons| - 1;
      ReviewableMembers(reasons[..n]);
      assert reasons == reasons[..n] + [reasons[n]];
    }
  }

  predicate NeedsReview(v: Evaluation) {
    exists i :: 0 <= i < |v.checks| && v.checks[i].outcome == Failed
             && v.checks[i].reason.Some? && !v.checks[i].reason.value.Overdue?
  }

  /** Review is requested iff a check other than an SLA check failed. */
  lemma ReviewIffContentFailure(e: Evidence, has: set<DocKind>, created: int, now: int, sla: int)
    ensures var v := Evaluate(e, has, created, now, sla);
            Reviewable(v.reasons) != [] <==> NeedsReview(v)
  {
    var v := Evaluate(e, has, created, now, sla);
    ReasonsAreFailedChecks(e, has, created, now, sla);
    ChecksExplained(e, has, created, now, sla);
    ReviewableMembers(v.reasons);
    if Reviewable(v.reasons) != [] {
      var r := Reviewable(v.reasons)[0];
      assert r in Reviewable(v.reasons);
      var i := FailedReasonsCome(v.checks, r);
      assert v.checks[i].outcome == Failed && v.checks[i].reason.Some? && !v.checks[i].reason.value.Overdue?;
    }
    if NeedsReview(v) {
      var i :| 0 <= i < |v.checks| && v.checks[i].outcome == Failed
            && v.checks[i].reason.Some? && !v.checks[i].reason.value.Overdue?;
      FailedReasonsFind(v.checks, i);
      assert v.checks[i].reason.value in Reviewable(v.reasons);
    }
  }

  /** A failed check has a deadline's reason exactly when it is a required document's. */
  predicate ReasonFits(c: Check) {
    c.outcome == Failed ==> c.reason.Some? && (c.reason.value.Overdue? <==> c.name.RequiredCheck?)
  }

  lemma ReasonsFit(e: Evidence, has: set<DocKind>, created: int, now: int, sla: int)
    ensures var v := Evaluate(e, has, created, now, sla);
            forall i :: 0 <= i < |v.checks| ==> ReasonFits(v.checks[i])
  {
    RequiredExplained(REQUIRED, has, Missing(REQUIRED, has) != [] && now >= created + sla);
  }

  predicate DeadlineFlip(before: Check, after: Check) {
    before == after
    || (before.name.RequiredCheck? && before.outcome == NotEvaluated
        && after == Check(before.name, Failed, Some(Overdue(before.name.kind))))
  }

  /** With the documents fixed, a later clock only turns pending required-document checks into
      overdue ones. */
  lemma LaterOnlyExpires(e: Evidence, has: set<DocKind>, created: int, now: int, later: int, sla: int)
    requires now <= later
    ensures var a, b := Evaluate(e, has, created, now, sla), Evaluate(e, has, created, later, sla);
            && a.missing == b.missing
            && |a.checks| == |b.checks|
            && forall i :: 0 <= i < |a.checks| ==> DeadlineFlip(a.checks[i], b.checks[i])
  {
    var missing := Missing(REQUIRED, has);
    RequiredExplained(REQUIRED, has, missing != [] && now >= created + sla);
    RequiredExplained(REQUIRED, has, missing != [] && later >= created + sla);
  }
}
