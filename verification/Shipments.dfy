/** Shipment assembly: set-once slots and presence flags, one reconciliation per arrival, and
    the shipment case (row plus exception log) that arrivals and sweeps both work on. */
module Shipments {
  import opened Options
  import opened Documents
  import opened MissingDocuments
  import opened Reconciliation

  /** `has` holds the four presence flags and `slots` the four document columns. */
  datatype Shipment = Shipment(
    created: int,
    carrier: string,
    has: set<DocKind>,
    slots: map<DocKind, int>,
    status: ReconStatus)

  function Fresh(created: int): Shipment {
    Shipment(created, "", {}, map[], Pending)
  }

  /** The document's own slot is set once. */
  function OwnSlot(slots: map<DocKind, int>, doc: Document): map<DocKind, int> {
    if doc.kind == Unclassified || doc.kind in slots then slots else slots[doc.kind := doc.id]
  }

  function OwnFlag(doc: Document): set<DocKind> {
    if doc.kind == Unclassified then {} else {doc.kind}
  }

  /** The companion document of a rate-confirmation row takes an empty rate-confirmation slot. */
  function RateSlot(slots: map<DocKind, int>, rate: Option<Rate>, companion: int): map<DocKind, int> {
    if RateCon !in slots && rate.Some? then slots[RateCon := companion] else slots
  }

  function RateFlag(slots: map<DocKind, int>, rate: Option<Rate>): set<DocKind> {
    if RateCon in slots || rate.Some? then {RateCon} else {}
  }

  function CarrierAfter(s: Shipment, doc: Document, rate: Option<Rate>): string {
    if s.carrier != "" then s.carrier
    else if doc.extraction.carrier != "" then doc.extraction.carrier
    else if RateCon !in OwnSlot(s.slots, doc) && rate.Some? then rate.value.carrier
    else ""
  }

  function PresentCount(has: set<DocKind>): nat {
    (if Invoice in has then 1 else 0) + (if RateCon in has then 1 else 0)
      + (if Bol in has then 1 else 0) + (if Pod in has then 1 else 0)
  }

  function AssemblyStatus(has: set<DocKind>, status: ReconStatus): ReconStatus {
    if PresentCount(has) == 0 then Pending else if PresentCount(has) < |REQUIRED| then Partial else status
  }

  function Upserted(s: Shipment, doc: Document, rate: Option<Rate>, companion: int): Shipment {
    var own := OwnSlot(s.slots, doc);
    var has := s.has + OwnFlag(doc) + RateFlag(own, rate);
    Shipment(s.created, CarrierAfter(s, doc, rate), has, RateSlot(own, rate, companion), AssemblyStatus(has, s.status))
  }

  // --------------------------------------------------------------- reconciliation

  datatype Case = Case(shipment: Shipment, log: Log)

  function SlotExtraction(docs: map<int, Document>, slots: map<DocKind, int>, kind: DocKind): Option<Extraction> {
    if kind in slots && slots[kind] in docs then Some(docs[slots[kind]].extraction) else None
  }

  /** A rate-confirmation row overrides whatever document sits in the slot. */
  function EvidenceOf(docs: map<int, Document>, slots: map<DocKind, int>, rate: Option<Rate>): Evidence {
    Evidence(SlotExtraction(docs, slots, Invoice),
             if rate.Some? then Some(RateExtraction(rate.value)) else SlotExtraction(docs, slots, RateCon),
             SlotExtraction(docs, slots, Bol),
             SlotExtraction(docs, slots, Pod))
  }

  function WithRate(has: set<DocKind>, rate: Option<Rate>): set<DocKind> {
    if rate.Some? then has + {RateCon} else has
  }

  function EvaluateCase(docs: map<int, Document>, rate: Option<Rate>, s: Shipment, now: int, sla: int): Evaluation {
    Evaluate(EvidenceOf(docs, s.slots, rate), WithRate(s.has, rate), s.created, now, sla)
  }

  function ReconcileCase(docs: map<int, Document>, rate: Option<Rate>, c: Case, now: int, sla: int): Case {
    var has := WithRate(c.shipment.has, rate);
    var v := EvaluateCase(docs, rate, c.shipment, now, sla);
    Case(c.shipment.(has := has, status := v.status),
         SyncedTo(c.log, Target(Missing(REQUIRED, has), c.shipment.created + sla, now), now))
  }

  /** What a slot says: the extraction of the document in it, if that is there. */
  predicate FromSlot(docs: map<int, Document>, slots: map<DocKind, int>, kind: DocKind, x: Option<Extraction>) {
    && (x.Some? <==> kind in slots && slots[kind] in docs)
    && (x.Some? ==> x.value == docs[slots[kind]].extraction)
  }

  /** Which document feeds which piece of evidence: each its own slot's, but the rate confirmation's is
      the table row's rate, carrier and shipment day when there is a row. */
  predicate FromSlots(docs: map<int, Document>, slots: map<DocKind, int>, rate: Option<Rate>, e: Evidence) {
    && FromSlot(docs, slots, Invoice, e.invoice)
    && FromSlot(docs, slots, Bol, e.bol)
    && FromSlot(docs, slots, Pod, e.pod)
    && (rate.None? ==> FromSlot(docs, slots, RateCon, e.rateCon))
    && (rate.Some? ==>
          && e.rateCon.Some? && e.rateCon.value.agreedRate == Cents(rate.value.agreedCents)
          && e.rateCon.value.carrier == rate.value.carrier && e.rateCon.value.shipmentDate == Day(rate.value.shipDay))
  }

  /** The checks of a shipment, from its slots' documents, its flags and the clock. */
  lemma CaseMeans(docs: map<int, Document>, rate: Option<Rate>, s: Shipment, now: int, sla: int) returns (e: Evidence)
    ensures FromSlots(docs, s.slots, rate, e)
    ensures EvaluationFits(e, s.has + (if rate.Some? then {RateCon} else {}), s.created + sla, now,
                           EvaluateCase(docs, rate, s, now, sla))
  {
    e := EvidenceOf(docs, s.slots, rate);
    EvaluationMeans(e, WithRate(s.has, rate), s.created, now, sla);
    assert WithRate(s.has, rate) == s.has + (if rate.Some? then {RateCon} else {});
  }

  /** What one arriving document does to the row, column by column: its own slot is set once and its
      flag is set; a table row fills an empty rate-confirmation slot and sets that flag, as a filled
      slot does; a missing carrier comes from the document, else from a row that fills the slot; and
      the status is pending without any document and partial without all four. */
  lemma UpsertMeans(s: Shipment, doc: Document, rate: Option<Rate>, companion: int, after: Shipment)
    requires after == Upserted(s, doc, rate, companion)
    ensures after.created == s.created
    ensures forall k :: k in {Invoice, Bol, Pod} ==>
              && (k in after.has <==> k in s.has || doc.kind == k)
              && (k in after.slots <==> k in s.slots || doc.kind == k)
              && (k in after.slots ==> after.slots[k] == if k in s.slots then s.slots[k] else doc.id)
    ensures RateCon in after.has <==> RateCon in s.has || doc.kind == RateCon || RateCon in s.slots || rate.Some?
    ensures RateCon in after.slots <==> RateCon in s.slots || doc.kind == RateCon || rate.Some?
    ensures RateCon in after.slots ==>
              after.slots[RateCon] == if RateCon in s.slots then s.slots[RateCon]
                                      else if doc.kind == RateCon then doc.id else companion
    ensures s.carrier != "" ==> after.carrier == s.carrier
    ensures s.carrier == "" && doc.extraction.carrier != "" ==> after.carrier == doc.extraction.carrier
    ensures s.carrier == "" && doc.extraction.carrier == "" ==>
              after.carrier == if rate.Some? && RateCon !in s.slots && doc.kind != RateCon then rate.value.carrier
                               else ""
    ensures var present := after.has * {Invoice, RateCon, Bol, Pod};
            && (present == {} ==> after.status == Pending)
            && ({} < present < {Invoice, RateCon, Bol, Pod} ==> after.status == Partial)
            && (present == {Invoice, RateCon, Bol, Pod} ==> after.status == s.status)
  {
    var present := after.has * {Invoice, RateCon, Bol, Pod};
    forall k | k in present ensures PresentCount(after.has) > 0 {
    }
    if present == {} {
      assert forall k :: k in {Invoice, RateCon, Bol, Pod} && k in after.has ==> k in present;
    } else {
      var k :| k in present;
    }
    if present == {Invoice, RateCon, Bol, Pod} {
      assert Invoice in present && RateCon in present && Bol in present && Pod in present;
      assert PresentCount(after.has) == 4;
    } else {
      assert exists k :: k in {Invoice, RateCon, Bol, Pod} && k !in present;
    }
  }

  // --------------------------------------------------- arrival-order confluence

  function FirstOf(kind: DocKind, docs: seq<Document>): Option<int> {
    if docs == [] then None
    else
      var n := |docs| - 1;
      var earlier := FirstOf(kind, docs[..n]);
      if earlier.Some? then earlier
      else if docs[n].kind == kind then Some(docs[n].id)
      else None
  }

  function KindsOf(docs: seq<Document>): set<DocKind> {
    set k | k in {Invoice, RateCon, Bol, Pod} && FirstOf(k, docs).Some?
  }

  function Assembled(s: Shipment, docs: seq<Document>, rate: Option<Rate>, companion: int): Shipment {
    if docs == [] then s
    else
      var n := |docs| - 1;
      Upserted(Assembled(s, docs[..n], rate, companion), docs[n], rate, companion)
  }

  /** A filled slot always has its flag. */
  predicate Flagged(s: Shipment) {
    s.slots.Keys <= s.has
  }

  /** Who holds a slot: the document already there, else the first to arrive. */
  function Holder(s: Shipment, kind: DocKind, docs: seq<Document>): Option<int> {
    if kind in s.slots then Some(s.slots[kind]) else FirstOf(kind, docs)
  }

  predicate Holds(s: Shipment, kind: DocKind, holder: Option<int>) {
    if holder.Some? then kind in s.slots && s.slots[kind] == holder.value else kind !in s.slots
  }

  lemma UpsertFlags(s: Shipment, doc: Document, rate: Option<Rate>, companion: int, after: Shipment)
    requires after == Upserted(s, doc, rate, companion) && Flagged(s)
    ensures Flagged(after) && after.created == s.created
    ensures after.has == s.has + OwnFlag(doc) + (if rate.Some? then {RateCon} else {})
  {
    var own := OwnSlot(s.slots, doc);
    assert own.Keys <= s.has + OwnFlag(doc);
  }

  /** The first document of a kind keeps the slot forever, whatever arrives later. */
  lemma {:induction false} FirstKeepsSlot(s: Shipment, docs: seq<Document>, rate: Option<Rate>, companion: int,
                                          kind: DocKind)
    returns (a: Shipment)
    requires kind != Unclassified && (kind != RateCon || rate.None?)
    ensures a == Assembled(s, docs, rate, companion)
    ensures Holds(a, kind, Holder(s, kind, docs))
    decreases |docs|
  {
    a := Assembled(s, docs, rate, companion);
    if docs != [] {
      var n := |docs| - 1;
      var before := FirstKeepsSlot(s, docs[..n], rate, companion, kind);
      assert a.slots == RateSlot(OwnSlot(before.slots, docs[n]), rate, companion);
    }
  }

  function RateSeen(rate: Option<Rate>, docs: seq<Document>): set<DocKind> {
    if rate.Some? && docs != [] then {RateCon} else {}
  }

  lemma {:induction false} KindsGrow(docs: seq<Document>, n: nat)
    requires |docs| == n + 1
    ensures KindsOf(docs) == KindsOf(docs[..n]) + OwnFlag(docs[n])
  {
    forall k ensures FirstOf(k, docs).Some? <==> FirstOf(k, docs[..n]).Some? || docs[n].kind == k {
    }
  }

  /** Flags are the kinds seen, plus the rate-confirmation flag when the table has a row. */
  lemma {:induction false} FlagsAreKindsSeen(s: Shipment, docs: seq<Document>, rate: Option<Rate>, companion: int)
    returns (a: Shipment)
    requires Flagged(s)
    ensures a == Assembled(s, docs, rate, companion)
    ensures Flagged(a) && a.created == s.created
    ensures a.has == s.has + KindsOf(docs) + RateSeen(rate, docs)
    decreases |docs|
  {
    a := Assembled(s, docs, rate, companion);
    if docs != [] {
      var n := |docs| - 1;
      var before := FlagsAreKindsSeen(s, docs[..n], rate, companion);
      UpsertFlags(before, docs[n], rate, companion, a);
      KindsGrow(docs, n);
    }
  }

  predicate SameFirsts(a: seq<Document>, b: seq<Document>) {
    forall k :: k != Unclassified ==> FirstOf(k, a) == FirstOf(k, b)
  }

  predicate SameSlot(s: Shipment, t: Shipment, kind: DocKind) {
    && (kind in s.slots <==> kind in t.slots)
    && (kind in s.slots ==> s.slots[kind] == t.slots[kind])
  }

  /** The rate-confirmation slot matters only when no table row overrides it. */
  predicate SameEvidence(s: Shipment, t: Shipment, rate: Option<Rate>) {
    && s.has == t.has && s.created == t.created
    && SameSlot(s, t, Invoice) && SameSlot(s, t, Bol) && SameSlot(s, t, Pod)
    && (rate.None? ==> SameSlot(s, t, RateCon))
  }

  lemma EvaluationSame(docs: map<int, Document>, rate: Option<Rate>, s: Shipment, t: Shipment, now: int, sla: int)
    requires SameEvidence(s, t, rate)
    ensures EvaluateCase(docs, rate, s, now, sla) == EvaluateCase(docs, rate, t, now, sla)
  {
    assert EvidenceOf(docs, s.slots, rate) == EvidenceOf(docs, t.slots, rate);
  }

  lemma SlotsFollowFirsts(s: Shipment, a: seq<Document>, b: seq<Document>, rate: Option<Rate>, companion: int,
                          kind: DocKind)
    returns (x: Shipment, y: Shipment)
    requires kind != Unclassified && (kind != RateCon || rate.None?)
    ensures x == Assembled(s, a, rate, companion) && y == Assembled(s, b, rate, companion)
    ensures FirstOf(kind, a) == FirstOf(kind, b) ==> SameSlot(x, y, kind)
    ensures kind !in s.slots && SameSlot(x, y, kind) ==> FirstOf(kind, a) == FirstOf(kind, b)
  {
    x := FirstKeepsSlot(s, a, rate, companion, kind);
    y := FirstKeepsSlot(s, b, rate, companion, kind);
  }

  /** Two arrival orders with the same first document of every kind assemble the same flags and
      the same slots; only the rate-confirmation slot may differ, and only with a table row. */
  lemma AssemblyConfluence(s: Shipment, a: seq<Document>, b: seq<Document>, rate: Option<Rate>, companion: int)
    returns (x: Shipment, y: Shipment)
    requires Flagged(s) && SameFirsts(a, b) && (a == [] <==> b == [])
    ensures x == Assembled(s, a, rate, companion) && y == Assembled(s, b, rate, companion)
    ensures SameEvidence(x, y, rate)
  {
    x := FlagsAreKindsSeen(s, a, rate, companion);
    y := FlagsAreKindsSeen(s, b, rate, companion);
    assert KindsOf(a) == KindsOf(b);
    assert RateSeen(rate, a) == RateSeen(rate, b);
    var _, _ := SlotsFollowFirsts(s, a, b, rate, companion, Invoice);
    var _, _ := SlotsFollowFirsts(s, a, b, rate, companion, Bol);
    var _, _ := SlotsFollowFirsts(s, a, b, rate, companion, Pod);
    if rate.None? {
      var _, _ := SlotsFollowFirsts(s, a, b, rate, companion, RateCon);
    }
  }

  /** On a fresh shipment without a table row the slots agree exactly when the firsts do. */
  lemma SlotsRememberFirsts(created: int, a: seq<Document>, b: seq<Document>, companion: int)
    ensures var x, y := Assembled(Fresh(created), a, None, companion), Assembled(Fresh(created), b, None, companion);
            SameFirsts(a, b) <==>
              SameSlot(x, y, Invoice) && SameSlot(x, y, RateCon) && SameSlot(x, y, Bol) && SameSlot(x, y, Pod)
  {
    var x, y := Assembled(Fresh(created), a, None, companion), Assembled(Fresh(created), b, None, companion);
    forall k | k != Unclassified ensures SameSlot(x, y, k) <==> FirstOf(k, a) == FirstOf(k, b) {
      var _, _ := SlotsFollowFirsts(Fresh(created), a, b, None, companion, k);
    }
  }

  /** One document per kind, and any number of unclassified ones. */
  predicate OnePerKind(docs: seq<Document>) {
    forall d, e :: d in docs && e in docs && d.kind == e.kind && d.kind != Unclassified ==> d.id == e.id
  }

  lemma {:induction false} FirstOfSome(kind: DocKind, docs: seq<Document>)
    ensures FirstOf(kind, docs).Some? ==> exists d :: d in docs && d.kind == kind && d.id == FirstOf(kind, docs).value
    ensures FirstOf(kind, docs).None? ==> forall d :: d in docs ==> d.kind != kind
  {
    if docs != [] {
      var n := |docs| - 1;
      FirstOfSome(kind, docs[..n]);
      assert docs == docs[..n] + [docs[n]];
    }
  }

  /** Any reordering, with retried documents repeated any number of times, has the same firsts
      as long as there is one document per kind. */
  lemma PermutationsHaveSameFirsts(a: seq<Document>, b: seq<Document>)
    requires forall d :: d in a <==> d in b
    requires OnePerKind(a)
    ensures SameFirsts(a, b)
  {
    forall k | k != Unclassified ensures FirstOf(k, a) == FirstOf(k, b) {
      FirstOfSome(k, a);
      FirstOfSome(k, b);
    }
  }

  // ------------------------------------------------- arrivals with reconciliation

  datatype Arrival = Arrival(doc: Document, now: int)

  function DocsOf(arrivals: seq<Arrival>): seq<Document> {
    if arrivals == [] then []
    else DocsOf(arrivals[..|arrivals| - 1]) + [arrivals[|arrivals| - 1].doc]
  }

  /** Each arrival is one transaction: upsert, then reconcile. */
  function Arrived(c: Case, arrivals: seq<Arrival>, docs: map<int, Document>,
                   rate: Option<Rate>, companion: int, sla: int): Case {
    if arrivals == [] then c
    else
      var n := |arrivals| - 1;
      var before := Arrived(c, arrivals[..n], docs, rate, companion, sla);
      var upserted := before.(shipment := Upserted(before.shipment, arrivals[n].doc, rate, companion));
      ReconcileCase(docs, rate, upserted, arrivals[n].now, sla)
  }

  predicate SameButStatus(s: Shipment, t: Shipment) {
    s.created == t.created && s.carrier == t.carrier && s.has == t.has && s.slots == t.slots
  }

  lemma UpsertIgnoresStatus(s: Shipment, t: Shipment, doc: Document, rate: Option<Rate>, companion: int,
                            s': Shipment, t': Shipment)
    requires SameButStatus(s, t)
    requires s' == Upserted(s, doc, rate, companion) && t' == Upserted(t, doc, rate, companion)
    ensures SameButStatus(s', t')
    ensures rate.Some? ==> RateCon in s'.has
  {
  }

  lemma ReconcileKeepsAssembly(docs: map<int, Document>, rate: Option<Rate>, c: Case, now: int, sla: int, after: Case)
    requires after == ReconcileCase(docs, rate, c, now, sla)
    requires rate.Some? ==> RateCon in c.shipment.has
    ensures SameButStatus(after.shipment, c.shipment)
    ensures after.shipment.status == EvaluateCase(docs, rate, c.shipment, now, sla).status
  {
    assert WithRate(c.shipment.has, rate) == c.shipment.has;
  }

  lemma {:induction false} ArrivalsAssemble(c: Case, arrivals: seq<Arrival>, docs: map<int, Document>,
                                            rate: Option<Rate>, companion: int, sla: int)
    returns (result: Case, assembled: Shipment)
    ensures result == Arrived(c, arrivals, docs, rate, companion, sla)
    ensures assembled == Assembled(c.shipment, DocsOf(arrivals), rate, companion)
    ensures SameButStatus(result.shipment, assembled)
    ensures arrivals != [] ==>
              result.shipment.status == EvaluateCase(docs, rate, assembled, arrivals[|arrivals| - 1].now, sla).status
    ensures DocsOf(arrivals) == [] <==> arrivals == []
    decreases |arrivals|
  {
    result := Arrived(c, arrivals, docs, rate, companion, sla);
    if arrivals == [] {
      return result, c.shipment;
    }
    var n := |arrivals| - 1;
    var doc := arrivals[n].doc;
    var r, a := ArrivalsAssemble(c, arrivals[..n], docs, rate, companion, sla);
    assert DocsOf(arrivals)[..|DocsOf(arrivals)| - 1] == DocsOf(arrivals[..n]);
    assembled := Upserted(a, doc, rate, companion);
    var upserted := r.(shipment := Upserted(r.shipment, doc, rate, companion));
    UpsertIgnoresStatus(r.shipment, a, doc, rate, companion, upserted.shipment, assembled);
    ReconcileKeepsAssembly(docs, rate, upserted, arrivals[n].now, sla, result);
    EvaluationSame(docs, rate, upserted.shipment, assembled, arrivals[n].now, sla);
  }

  /** Arrival-order confluence: whatever the order, interleaved reconciliations and repeated
      deliveries, the same documents end with the same flags, checks and reconciliation status
      at the same final time, and with the same slots when there is no rate-confirmation row. */
  lemma ArrivalOrderConfluence(c: Case, a: seq<Arrival>, b: seq<Arrival>, docs: map<int, Document>,
                               rate: Option<Rate>, companion: int, sla: int)
    requires Flagged(c.shipment) && a != [] && b != []
    requires a[|a| - 1].now == b[|b| - 1].now
    requires forall d :: d in DocsOf(a) <==> d in DocsOf(b)
    requires OnePerKind(DocsOf(a))
    ensures var x := Arrived(c, a, docs, rate, companion, sla).shipment;
            var y := Arrived(c, b, docs, rate, companion, sla).shipment;
            var now := a[|a| - 1].now;
            && SameEvidence(x, y, rate)
            && x.status == y.status
            && EvaluateCase(docs, rate, x, now, sla) == EvaluateCase(docs, rate, y, now, sla)
  {
    var now := a[|a| - 1].now;
    var x, xa := ArrivalsAssemble(c, a, docs, rate, companion, sla);
    var y, ya := ArrivalsAssemble(c, b, docs, rate, companion, sla);
    PermutationsHaveSameFirsts(DocsOf(a), DocsOf(b));
    var _, _ := AssemblyConfluence(c.shipment, DocsOf(a), DocsOf(b), rate, companion);
    assert SameEvidence(x.shipment, y.shipment, rate);
    EvaluationSame(docs, rate, x.shipment, y.shipment, now, sla);
    EvaluationSame(docs, rate, xa, ya, now, sla);
  }

  /** Who holds the rate-confirmation slot when the table has a row: the document already there, else
      the very first arrival if it is a rate confirmation, else the row's companion document. */
  function RateHolder(s: Shipment, docs: seq<Document>, companion: int): Option<int> {
    if RateCon in s.slots then Some(s.slots[RateCon])
    else if docs == [] then None
    else if docs[0].kind == RateCon then Some(docs[0].id)
    else Some(companion)
  }

  lemma {:induction false} FirstArrivalTakesRateSlot(s: Shipment, docs: seq<Document>, rate: Rate, companion: int)
    returns (a: Shipment)
    ensures a == Assembled(s, docs, Some(rate), companion)
    ensures Holds(a, RateCon, RateHolder(s, docs, companion))
    decreases |docs|
  {
    a := Assembled(s, docs, Some(rate), companion);
    if docs != [] {
      var n := |docs| - 1;
      var before := FirstArrivalTakesRateSlot(s, docs[..n], rate, companion);
      assert a.slots == RateSlot(OwnSlot(before.slots, docs[n]), Some(rate), companion);
    }
  }

  /** With a rate-confirmation row, two orders leave the same document in its slot column if and only
      if the same one holds it first: so with nothing there before, the column does depend on the
      order, and only on whether the very first arrival is a rate confirmation, and which. */
  lemma RateSlotDependsOnOrder(s: Shipment, a: seq<Document>, b: seq<Document>, rate: Rate, companion: int)
    returns (x: Shipment, y: Shipment)
    ensures x == Assembled(s, a, Some(rate), companion) && y == Assembled(s, b, Some(rate), companion)
    ensures SameSlot(x, y, RateCon) <==> RateHolder(s, a, companion) == RateHolder(s, b, companion)
    ensures RateCon !in s.slots && a != [] && b != [] && a[0].id != companion && b[0].id != companion ==>
              (SameSlot(x, y, RateCon) <==>
                 || (a[0].kind == RateCon && b[0].kind == RateCon && a[0].id == b[0].id)
                 || (a[0].kind != RateCon && b[0].kind != RateCon))
  {
    x := FirstArrivalTakesRateSlot(s, a, rate, companion);
    y := FirstArrivalTakesRateSlot(s, b, rate, companion);
  }

  // ------------------------------------------- exceptions agree with the paperwork

  /** What the sweep looks for: old enough, incomplete, and with no active exception. */
  predicate IsCandidate(c: Case, now: int, sla: int) {
    && c.shipment.created <= now - sla
    && Missing(REQUIRED, c.shipment.has) != []
    && !IsActive(c.log)
  }

  predicate IsOverdue(s: Shipment, now: int, sla: int) {
    Missing(REQUIRED, s.has) != [] && now >= s.created + sla
  }

  /** An exception is active exactly for an overdue shipment, and names what is missing. */
  predicate Agrees(c: Case, now: int, sla: int) {
    && (IsActive(c.log) <==> IsOverdue(c.shipment, now, sla))
    && Current(c, now, sla)
  }

  /** An active exception is up to date with the flags, the deadline and the clock. */
  predicate Current(c: Case, now: int, sla: int) {
    IsActive(c.log) ==>
      c.log.row.value.state == Target(Missing(REQUIRED, c.shipment.has), c.shipment.created + sla, now)
  }

  function Swept(docs: map<int, Document>, rate: Option<Rate>, c: Case, now: int, sla: int): Case {
    if IsCandidate(c, now, sla) then ReconcileCase(docs, rate, c, now, sla) else c
  }

  lemma ReconcileMakesCurrent(docs: map<int, Document>, rate: Option<Rate>, c: Case, now: int, sla: int, after: Case)
    requires after == ReconcileCase(docs, rate, c, now, sla)
    ensures Agrees(after, now, sla) && !IsCandidate(after, now, sla)
  {
    var want := Target(Missing(REQUIRED, after.shipment.has), after.shipment.created + sla, now);
    assert after.log == SyncedTo(c.log, want, now);
    assert want.status == Active <==> IsOverdue(after.shipment, now, sla);
    assert after.log.row.Some? ==> after.log.row.value.state == want;
  }

  /** After a sweep the exception of a shipment agrees with its paperwork if and only if the one
      it had before, if active, was current: the sweep never revisits an active exception. */
  lemma SweepAgreement(docs: map<int, Document>, rate: Option<Rate>, c: Case, now: int, sla: int, after: Case)
    requires after == Swept(docs, rate, c, now, sla)
    ensures Agrees(after, now, sla) <==> Current(c, now, sla)
    ensures !IsCandidate(after, now, sla)
  {
    if IsCandidate(c, now, sla) {
      ReconcileMakesCurrent(docs, rate, c, now, sla, after);
    }
  }

  /** A changed SLA is what makes an active exception go stale: whenever one agrees under the old
      SLA, a sweep under any other SLA leaves it with an out-of-date deadline. */
  lemma ChangedSlaGoesStale(docs: map<int, Document>, rate: Option<Rate>, c: Case, now: int, sla: int, newSla: int)
    requires Agrees(c, now, sla) && IsActive(c.log) && newSla != sla
    ensures !Agrees(Swept(docs, rate, c, now, newSla), now, newSla)
  {
    assert c.log.row.value.state.deadline == c.shipment.created + sla;
    assert !Current(c, now, newSla);
    SweepAgreement(docs, rate, c, now, newSla, Swept(docs, rate, c, now, newSla));
  }

  /** Everything that happens to a shipment: arrivals and sweeps, under any tables. */
  datatype Work =
    | Deliver(doc: Document, companion: int, docs: map<int, Document>, rate: Option<Rate>, now: int)
    | Sweep(docs: map<int, Document>, rate: Option<Rate>, now: int)

  function Worked(c: Case, work: seq<Work>, sla: int): Case {
    if work == [] then c
    else
      var n := |work| - 1;
      var before := Worked(c, work[..n], sla);
      match work[n]
      case Deliver(doc, companion, docs, rate, now) =>
        ReconcileCase(docs, rate, before.(shipment := Upserted(before.shipment, doc, rate, companion)), now, sla)
      case Sweep(docs, rate, now) => Swept(docs, rate, before, now, sla)
  }

  predicate Clocked(work: seq<Work>) {
    |work| <= 1 ||
    (var n := |work| - 1; Clocked(work[..n]) && work[n - 1].now <= work[n].now)
  }

  lemma {:induction false} WorkKeepsCurrent(created: int, work: seq<Work>, now: int, sla: int) returns (c: Case)
    requires Clocked(work) && (work != [] ==> work[|work| - 1].now <= now)
    ensures c == Worked(Case(Fresh(created), EMPTY_LOG), work, sla)
    ensures Current(c, now, sla)
    decreases |work|
  {
    c := Worked(Case(Fresh(created), EMPTY_LOG), work, sla);
    if work != [] {
      var n := |work| - 1;
      var before := WorkKeepsCurrent(created, work[..n], work[n].now, sla);
      if work[n].Deliver? {
        var w := work[n];
        var upserted := before.(shipment := Upserted(before.shipment, w.doc, w.rate, w.companion));
        ReconcileMakesCurrent(w.docs, w.rate, upserted, w.now, sla, c);
      } else {
        SweepAgreement(work[n].docs, work[n].rate, before, work[n].now, sla, c);
      }
      assert Current(c, work[n].now, sla);
    }
  }

  /** Over every history of arrivals and sweeps with a fixed SLA and a clock that does not go
      back, a sweep leaves an active exception on exactly the overdue shipments, with the
      policy's missing documents and reason codes, and nothing left to claim. */
  lemma SweepAgreesAfterAnyHistory(created: int, work: seq<Work>, sweep: Work, sla: int) returns (c: Case)
    requires sweep.Sweep? && Clocked(work + [sweep])
    ensures c == Worked(Case(Fresh(created), EMPTY_LOG), work + [sweep], sla)
    ensures Agrees(c, sweep.now, sla) && !IsCandidate(c, sweep.now, sla)
  {
    assert (work + [sweep])[..|work|] == work;
    var before := WorkKeepsCurrent(created, work, sweep.now, sla);
    c := Swept(sweep.docs, sweep.rate, before, sweep.now, sla);
    SweepAgreement(sweep.docs, sweep.rate, before, sweep.now, sla, c);
  }

  lemma ReconcileObserves(docs: map<int, Document>, rate: Option<Rate>, c: Case, now: int, sla: int,
                          obs: seq<Observation>,
                          created: int, after: Case, more: seq<Observation>)
    requires after == ReconcileCase(docs, rate, c, now, sla) && c.shipment.created == created
    requires Monotone(obs) && c.log == Observed(REQUIRED, obs, created, sla)
    requires obs != [] ==> obs[|obs| - 1].has <= c.shipment.has && obs[|obs| - 1].now <= now
    requires more == obs + [Observation(after.shipment.has, now)]
    ensures Monotone(more) && after.log == Observed(REQUIRED, more, created, sla) && after.shipment.created == created
  {
    assert more[..|obs|] == obs;
  }

  /** The log is one of observations up to now, and their flags are still set. */
  predicate IsObserved(c: Case, obs: seq<Observation>, created: int, sla: int, now: int) {
    && Monotone(obs) && c.shipment.created == created && c.log == Observed(REQUIRED, obs, created, sla)
    && (obs != [] ==> obs[|obs| - 1].has <= c.shipment.has && obs[|obs| - 1].now <= now)
  }

  lemma DeliverObserves(c: Case, w: Work, obs: seq<Observation>, created: int, sla: int, after: Case)
    returns (more: seq<Observation>)
    requires IsObserved(c, obs, created, sla, w.now) && w.Deliver?
    requires after == ReconcileCase(w.docs, w.rate, c.(shipment := Upserted(c.shipment, w.doc, w.rate,
              w.companion)), w.now, sla)
    ensures IsObserved(after, more, created, sla, w.now)
  {
    more := obs + [Observation(after.shipment.has, w.now)];
    ReconcileObserves(w.docs, w.rate, c.(shipment := Upserted(c.shipment, w.doc, w.rate, w.companion)), w.now, sla,
        obs, created,
                      after, more);
  }

  lemma SweepObserves(c: Case, w: Work, obs: seq<Observation>, created: int, sla: int, after: Case)
    returns (more: seq<Observation>)
    requires IsObserved(c, obs, created, sla, w.now) && w.Sweep? && after == Swept(w.docs, w.rate, c, w.now, sla)
    ensures IsObserved(after, more, created, sla, w.now)
  {
    more := obs;
    if IsCandidate(c, w.now, sla) {
      more := obs + [Observation(after.shipment.has, w.now)];
      ReconcileObserves(w.docs, w.rate, c, w.now, sla, obs, created, after, more);
    }
  }

  /** Whatever arrives and is swept, a shipment's log is one of observations whose flags only grow and
      whose clock does not go back. */
  lemma {:induction false} WorkIsObserved(created: int, work: seq<Work>, now: int, sla: int)
    returns (c: Case, obs: seq<Observation>)
    requires Clocked(work) && (work != [] ==> work[|work| - 1].now <= now)
    ensures c == Worked(Case(Fresh(created), EMPTY_LOG), work, sla) && IsObserved(c, obs, created, sla, now)
    decreases |work|
  {
    c, obs := Worked(Case(Fresh(created), EMPTY_LOG), work, sla), [];
    if work != [] {
      var n := |work| - 1;
      var before: Case;
      before, obs := WorkIsObserved(created, work[..n], work[n].now, sla);
      if work[n].Deliver? {
        obs := DeliverObserves(before, work[n], obs, created, sla, c);
      } else {
        obs := SweepObserves(before, work[n], obs, created, sla, c);
      }
    }
  }

  /** So over every history of arrivals and sweeps with a fixed SLA and a clock that does not go back,
      the exception's log reads opened, changed*, optionally closed, each time with a proper subset of
      the documents missing before, and never holds more than five events. */
  lemma LifecycleOfAnyHistory(created: int, work: seq<Work>, sla: int) returns (c: Case)
    requires Clocked(work)
    ensures c == Worked(Case(Fresh(created), EMPTY_LOG), work, sla)
    ensures Lifecycle(c.log.events) && |c.log.events| <= 5
  {
    var obs: seq<Observation>;
    c, obs := WorkIsObserved(created, work, if work == [] then 0 else work[|work| - 1].now, sla);
    LifecycleBound(obs, created, sla);
  }
}
