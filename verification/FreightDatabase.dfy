/** The tables that shipment assembly, reconciliation and the SLA sweep work on. A method loads
    a row, changes it field by field and writes it back. */
module FreightDatabase {
  import opened Options
  import opened Documents
  import opened MissingDocuments
  import opened Reconciliation
  import opened Shipments

  /** Which unique key a reconciliation result is stored under, if any. */
  datatype ResultKey =
    | Unkeyed
    | ForRun(run: string)
    | ForSweep(load: string, deadline: int, missing: seq<DocKind>)
    | ForRateConfirmation(rate: int)

  datatype ResultRow = ResultRow(key: ResultKey, load: string, evaluation: Evaluation)

  function KeyIndex(rows: seq<ResultRow>, key: ResultKey): (i: nat)
    ensures i <= |rows|
    ensures i < |rows| ==> rows[i].key == key
  {
    if rows == [] then 0
    else if rows[0].key == key then 0
    else 1 + KeyIndex(rows[1..], key)
  }

  /** Update the row stored under the key, or add one; unkeyed results are always added. */
  function StoreResult(rows: seq<ResultRow>, row: ResultRow): seq<ResultRow> {
    var i := KeyIndex(rows, row.key);
    if row.key == Unkeyed || i == |rows| then rows + [row] else rows[i := row]
  }

  function KeyCount(rows: seq<ResultRow>, key: ResultKey): nat {
    if rows == [] then 0 else (if rows[0].key == key then 1 else 0) + KeyCount(rows[1..], key)
  }

  lemma {:induction false} KeyCountAppend(rows: seq<ResultRow>, row: ResultRow, key: ResultKey)
    ensures KeyCount(rows + [row], key) == KeyCount(rows, key) + (if row.key == key then 1 else 0)
  {
    if rows != [] {
      assert (rows + [row])[1..] == rows[1..] + [row];
      KeyCountAppend(rows[1..], row, key);
    }
  }

  lemma {:induction false} KeyCountReplace(rows: seq<ResultRow>, i: nat, row: ResultRow, key: ResultKey)
    requires i < |rows| && rows[i].key == row.key
    ensures KeyCount(rows[i := row], key) == KeyCount(rows, key)
  {
    if i == 0 {
      assert rows[0 := row][1..] == rows[1..];
    } else {
      assert rows[i := row][1..] == rows[1..][i - 1 := row];
      KeyCountReplace(rows[1..], i - 1, row, key);
    }
  }

  lemma {:induction false} KeyIndexMissing(rows: seq<ResultRow>, key: ResultKey)
    ensures KeyIndex(rows, key) == |rows| <==> KeyCount(rows, key) == 0
  {
    if rows != [] {
      KeyIndexMissing(rows[1..], key);
    }
  }

  /** A redelivered run or a repeated sweep replaces its result: the key ends with exactly one row
      when it had at most one, and every other key keeps its rows. */
  lemma StoreResultOnce(rows: seq<ResultRow>, row: ResultRow, other: ResultKey)
    requires row.key != Unkeyed && KeyCount(rows, row.key) <= 1
    ensures KeyCount(StoreResult(rows, row), row.key) == 1
    ensures other != row.key ==> KeyCount(StoreResult(rows, row), other) == KeyCount(rows, other)
    ensures row in StoreResult(rows, row)
  {
    var i := KeyIndex(rows, row.key);
    KeyIndexMissing(rows, row.key);
    if i == |rows| {
      KeyCountAppend(rows, row, row.key);
      KeyCountAppend(rows, row, other);
    } else {
      KeyCountReplace(rows, i, row, row.key);
      KeyCountReplace(rows, i, row, other);
      assert rows[i := row][i] == row;
    }
  }

  /** An unkeyed result is always added, and the rest stays as it was. */
  lemma UnkeyedIsAdded(rows: seq<ResultRow>, row: ResultRow)
    requires row.key == Unkeyed
    ensures |StoreResult(rows, row)| == |rows| + 1 && StoreResult(rows, row)[|rows|] == row
    ensures forall i :: 0 <= i < |rows| ==> StoreResult(rows, row)[i] == rows[i]
  {
  }

  /** Every stored key names one result. */
  ghost predicate UniqueKeys(rows: seq<ResultRow>) {
    forall key :: key != Unkeyed ==> KeyCount(rows, key) <= 1
  }

  lemma StoreKeepsUnique(rows: seq<ResultRow>, row: ResultRow)
    requires UniqueKeys(rows)
    ensures UniqueKeys(StoreResult(rows, row))
  {
    forall other | other != Unkeyed ensures KeyCount(StoreResult(rows, row), other) <= 1 {
      if row.key == Unkeyed {
        KeyCountAppend(rows, row, other);
      } else {
        StoreResultOnce(rows, row, other);
      }
    }
  }

  /** The document's own slot, flag and carrier, written field by field. */
  method AttachDocument(before: Shipment, doc: Document) returns (shipment: Shipment)
    ensures shipment.slots == OwnSlot(before.slots, doc) && shipment.has == before.has + OwnFlag(doc)
    ensures shipment.carrier == if before.carrier == "" then doc.extraction.carrier else before.carrier
    ensures shipment.created == before.created && shipment.status == before.status
  {
    shipment := before;
    if doc.kind != Unclassified {
      if doc.kind !in shipment.slots {
        shipment := shipment.(slots := shipment.slots[doc.kind := doc.id]);
      }
      shipment := shipment.(has := shipment.has + {doc.kind});
    }
    if shipment.carrier == "" && doc.extraction.carrier != "" {
      shipment := shipment.(carrier := doc.extraction.carrier);
    }
  }

  /** The documents, which of them stand for rate confirmations, and whose shipment each is. */
  datatype Papers = Papers(docs: map<int, Document>, companions: map<int, int>, links: map<int, string>)

  /** The companion of a rate confirmation: the one it has, else a fresh one. */
  function CompanionId(companions: map<int, int>, rate: Rate, freshId: int): int {
    if rate.id in companions then companions[rate.id] else freshId
  }

  /** The document an upsert would put into an empty rate-confirmation slot. */
  function SlotCompanion(p: Papers, slots: map<DocKind, int>, rate: Option<Rate>, freshId: int): int {
    if RateCon in slots || rate.None? then freshId else CompanionId(p.companions, rate.value, freshId)
  }

  /** An empty rate-confirmation slot takes the companion of the table row, created or refreshed and
      linked; otherwise no document changes. */
  function Filled(p: Papers, slots: map<DocKind, int>, load: string, rate: Option<Rate>, freshId: int): Papers {
    if RateCon in slots || rate.None? then p
    else
      var id := SlotCompanion(p, slots, rate, freshId);
      Papers(p.docs[id := Document(id, RateCon, RateExtraction(rate.value))],
             p.companions[rate.value.id := id], p.links[id := load])
  }

  /** The arriving document points to its shipment. */
  function Linked(p: Papers, doc: Document, load: string): Papers {
    p.(links := p.links[doc.id := load])
  }

  /** The exception row and the event its synchronization adds. */
  method SyncLog(log: Log, policy: Policy, now: int) returns (after: Log)
    ensures after == Synced(log, policy, now)
  {
    var row, event := SyncException(log.row, policy, now);
    after := Log(row, if event.Some? then log.events + [event.value] else log.events);
    assert after == Synced(Log(log.row, log.events), policy, now);
  }

  /** The evaluation of a row from its slots' documents, with the flag a rate-confirmation row sets. */
  method EvaluateRow(docs: map<int, Document>, rate: Option<Rate>, before: Shipment, now: int, sla: int)
    returns (shipment: Shipment, evaluation: Evaluation, policy: Policy)
    ensures shipment == before.(has := WithRate(before.has, rate))
    ensures evaluation == EvaluateCase(docs, rate, before, now, sla)
    ensures policy == PolicyFor(REQUIRED, shipment.has, shipment.created, now, sla)
  {
    shipment := before;
    var evidence := EvidenceOf(docs, shipment.slots, rate);
    if rate.Some? {
      shipment := shipment.(has := shipment.has + {RateCon});
    }
    evaluation, policy := EvaluateShipment(evidence, shipment.has, shipment.created, now, sla);
  }

  /** What one reconciliation does to the shipment row and its exception. */
  method ReconcileRow(docs: map<int, Document>, rate: Option<Rate>, c: Case, now: int, sla: int)
    returns (after: Case, evaluation: Evaluation)
    ensures after == ReconcileCase(docs, rate, c, now, sla)
    ensures evaluation == EvaluateCase(docs, rate, c.shipment, now, sla)
  {
    var shipment, policy;
    shipment, evaluation, policy := EvaluateRow(docs, rate, c.shipment, now, sla);
    shipment := shipment.(status := evaluation.status);

    var log := SyncLog(c.log, policy, now);
    PolicyAsksForTarget(REQUIRED, shipment.has, shipment.created, now, sla);
    after := Case(shipment, log);
  }

  class Database {
    var docs: map<int, Document>
    var rates: map<string, Rate>         // by load number
    var companions: map<int, int>        // rate-confirmation id -> its companion document
    var links: map<int, string>          // document id -> the load number of its shipment
    var shipments: map<string, Shipment> // by load number
    var ids: map<string, nat>            // load number -> shipment id
    var logs: map<string, Log>
    var results: seq<ResultRow>

    constructor ()
      ensures Valid() && shipments == map[] && results == []
    {
      docs, rates, companions, links := map[], map[], map[], map[];
      shipments, ids, logs, results := map[], map[], map[], [];
    }

    ghost predicate Valid()
      reads this
    {
      && logs.Keys == shipments.Keys == ids.Keys
      && UniqueKeys(results)
    }

    function RateFor(load: string): Option<Rate>
      reads this
    {
      RateIn(rates, load)
    }

    function CaseOf(load: string): Case
      requires load in shipments && load in logs
      reads this
    {
      Case(shipments[load], logs[load])
    }

    /** The document that stands for a rate-confirmation row, created on first use, refreshed from the
        row and linked to the shipment. */
    method CompanionDocument(rate: Rate, load: string, freshId: int) returns (id: int)
      requires freshId !in docs
      modifies this`docs, this`companions, this`links
      ensures id == CompanionId(old(companions), rate, freshId)
      ensures companions == old(companions)[rate.id := id]
      ensures docs == old(docs)[id := Document(id, RateCon, RateExtraction(rate))]
      ensures links == old(links)[id := load]
    {
      if rate.id in companions {
        id := companions[rate.id];
      } else {
        id := freshId;
        companions := companions[rate.id := id];
      }
      docs := docs[id := Document(id, RateCon, RateExtraction(rate))];
      links := links[id := load];
    }

    ghost function AllPapers(): Papers
      reads this
    {
      Papers(docs, companions, links)
    }

    /** Fill an empty rate-confirmation slot from the table, through its companion document. */
    method AttachExistingRateConfirmation(before: Shipment, load: string, freshId: int)
      returns (shipment: Shipment, companion: int)
      requires freshId !in docs
      modifies this`docs, this`companions, this`links
      ensures shipment.slots == RateSlot(before.slots, RateFor(load), companion)
      ensures shipment.has == before.has + RateFlag(before.slots, RateFor(load))
      ensures shipment.carrier == if before.carrier == "" && RateCon !in before.slots && load in rates
                                  then rates[load].carrier else before.carrier
      ensures shipment.created == before.created && shipment.status == before.status
      ensures AllPapers() == Filled(old(AllPapers()), before.slots, load, RateFor(load), freshId)
      ensures companion == SlotCompanion(old(AllPapers()), before.slots, RateFor(load), freshId)
    {
      shipment, companion := before, freshId;
      if RateCon in shipment.slots {
        shipment := shipment.(has := shipment.has + {RateCon});
        return;
      }
      if load !in rates {
        return;
      }
      companion := CompanionDocument(rates[load], load, freshId);
      shipment := shipment.(slots := shipment.slots[RateCon := companion]);
      shipment := shipment.(has := shipment.has + {RateCon});
      if shipment.carrier == "" {
        shipment := shipment.(carrier := rates[load].carrier);
      }
    }

    /** The row as one arriving document leaves it, and the documents it then links to the shipment. */
    method AssembleRow(before: Shipment, load: string, doc: Document, freshId: int)
      returns (shipment: Shipment, companion: int)
      requires freshId !in docs
      modifies this`docs, this`companions, this`links
      ensures shipment == Upserted(before, doc, RateFor(load), companion)
      ensures AllPapers() == Filled(Linked(old(AllPapers()), doc, load), OwnSlot(before.slots, doc), load,
                RateFor(load), freshId)
      ensures companion == SlotCompanion(old(AllPapers()), OwnSlot(before.slots, doc), RateFor(load), freshId)
    {
      links := links[doc.id := load];
      shipment := AttachDocument(before, doc);
      shipment, companion := AttachExistingRateConfirmation(shipment, load, freshId);
      var present := PresentCount(shipment.has);
      if present == 0 {
        shipment := shipment.(status := Pending);
      } else if present < |REQUIRED| {
        shipment := shipment.(status := Partial);
      }
    }

    /** The shipment's row, its id and its empty exception log, created when there is none. */
    method GetOrCreateRow(l: string, createdNow: int, freshShipment: nat) returns (row: Shipment)
      requires Valid()
      modifies this`shipments, this`ids, this`logs
      ensures Valid() && row == if l in old(shipments) then old(shipments)[l]
                               else Shipment(createdNow, "", {}, map[], Pending)
      ensures shipments == old(shipments)[l := row]
      ensures ids == if l in old(ids) then old(ids) else old(ids)[l := freshShipment]
      ensures logs == if l in old(logs) then old(logs) else old(logs)[l := EMPTY_LOG]
    {
      if l !in shipments {
        shipments := shipments[l := Fresh(createdNow)];
        ids := ids[l := freshShipment];
        logs := logs[l := EMPTY_LOG];
      }
      row := shipments[l];
    }

    method SaveRow(l: string, row: Shipment)
      requires Valid() && l in shipments
      modifies this`shipments
      ensures Valid() && shipments == old(shipments)[l := row]
    {
      shipments := shipments[l := row];
    }

    method UpsertShipment(load: Option<string>, doc: Document, createdNow: int, freshShipment: nat, freshId: int)
      returns (found: bool, companion: int)
      requires Valid() && freshId !in docs
      modifies this
      ensures Valid() && rates == old(rates) && results == old(results)
      ensures found == load.Some?
      ensures !found ==>
                && shipments == old(shipments) && ids == old(ids) && logs == old(logs)
                && AllPapers() == old(AllPapers())
      ensures found ==>
        var l := load.value;
        var before := if l in old(shipments) then old(shipments)[l] else Fresh(createdNow);
        && shipments == old(shipments)[l := Upserted(before, doc, RateFor(l), companion)]
        && ids == (if l in old(ids) then old(ids) else old(ids)[l := freshShipment])
        && logs == (if l in old(logs) then old(logs) else old(logs)[l := EMPTY_LOG])
        && AllPapers() == Filled(Linked(old(AllPapers()), doc, l), OwnSlot(before.slots, doc), l, RateFor(l), freshId)
        && companion == SlotCompanion(old(AllPapers()), OwnSlot(before.slots, doc), RateFor(l), freshId)
    {
      found := load.Some?;
      companion := freshId;
      if found {
        var l := load.value;
        var row := GetOrCreateRow(l, createdNow, freshShipment);
        row, companion := AssembleRow(row, l, doc, freshId);
        SaveRow(l, row);
      }
    }

    method StoreResultRow(row: ResultRow)
      modifies this`results
      ensures results == StoreResult(old(results), row)
    {
      var i := 0;
      if row.key == Unkeyed {
        i := |results|;
      }
      while i < |results| && results[i].key != row.key
        invariant 0 <= i <= |results|
        invariant row.key != Unkeyed ==> KeyIndex(results, row.key) == i + KeyIndex(results[i..], row.key)
      {
        i := i + 1;
      }
      if i < |results| {
        results := results[i := row];
      } else {
        results := results + [row];
      }
    }

    /** One reconciliation transaction: evaluate, write the status and the override flag, store
        the result under its key and synchronize the exception. */
    method ReconcileShipment(load: string, key: ResultKey, now: int, sla: int)
      requires Valid() && load in shipments
      modifies this
      ensures Valid() && docs == old(docs) && rates == old(rates) && companions == old(companions)
      ensures links == old(links) && ids == old(ids)
      ensures var after := ReconcileCase(docs, RateFor(load), old(CaseOf(load)), now, sla);
              && shipments == old(shipments)[load := after.shipment]
              && logs == old(logs)[load := after.log]
      ensures results == StoreResult(old(results),
                ResultRow(key, load, EvaluateCase(docs, RateFor(load), old(shipments)[load], now, sla)))
    {
      var after, evaluation := ReconcileRow(docs, RateFor(load), CaseOf(load), now, sla);
      StoreKeepsUnique(results, ResultRow(key, load, evaluation));
      StoreResultRow(ResultRow(key, load, evaluation));
      shipments := shipments[load := after.shipment];
      logs := logs[load := after.log];
    }

    // ------------------------------------------------------------------ the sweep

    function Cases(): map<string, Case>
      requires logs.Keys == shipments.Keys
      reads this
    {
      map load | load in shipments :: CaseOf(load)
    }

    /** The order of the claiming query: older first, then the smaller id. */
    predicate Precedes(a: string, b: string)
      requires a in shipments && b in shipments && a in ids && b in ids
      reads this
    {
      shipments[a].created < shipments[b].created || (shipments[a].created == shipments[b].created && ids[a] <= ids[b])
    }

    /** The first candidate of the claiming query that nobody else has locked. */
    method OldestCandidate(now: int, sla: int, locked: set<string>) returns (claimed: Option<string>)
      requires Valid()
      ensures claimed.None? <==> Candidates(Cases(), now, sla) - locked == {}
      ensures claimed.Some? ==>
        && claimed.value in Candidates(Cases(), now, sla) - locked
        && forall load :: load in Candidates(Cases(), now, sla) - locked ==>
             && shipments[claimed.value].created <= shipments[load].created
             && (shipments[claimed.value].created == shipments[load].created ==> ids[claimed.value] <= ids[load])
    {
      var all := Candidates(Cases(), now, sla) - locked;
      claimed := None;
      var rest := all;
      while rest != {}
        invariant rest <= all
        invariant claimed.None? <==> rest == all
        invariant claimed.Some? ==>
          && claimed.value in all
          && forall load :: load in all && load !in rest ==> Precedes(claimed.value, load)
      {
        var load :| load in rest;
        rest := rest - {load};
        if claimed.None? || !Precedes(claimed.value, load) {
          claimed := Some(load);
        }
        assert load in all && load !in rest;
      }
    }

    /** Reconcile a claimed shipment under the key of its deadline and gaps. */
    method EvaluateClaim(load: string, now: int, sla: int)
      requires Valid() && load in shipments
      modifies this
      ensures Valid() && docs == old(docs) && rates == old(rates) && companions == old(companions)
      ensures links == old(links) && ids == old(ids)
      ensures Cases() == old(Cases())[load := ReconcileCase(docs, RateFor(load), old(Cases())[load], now, sla)]
      ensures results == StoreResult(old(results),
                SweepResult(docs, RateFor(load), load, old(shipments)[load], now, sla))
    {
      var shipment := shipments[load];
      var policy := EvaluatePolicy(REQUIRED, shipment.has, shipment.created, now, sla);
      ReconcileShipment(load, ForSweep(load, policy.deadline, policy.missing), now, sla);
    }

    method ClaimAndEvaluateOne(now: int, sla: int, locked: set<string>) returns (claimed: Option<string>)
      requires Valid()
      modifies this
      ensures Valid() && docs == old(docs) && rates == old(rates) && companions == old(companions)
      ensures links == old(links) && ids == old(ids)
      ensures claimed.None? <==> Candidates(old(Cases()), now, sla) - locked == {}
      ensures claimed.None? ==> Cases() == old(Cases()) && results == old(results)
      ensures claimed.Some? ==>
        var load := claimed.value;
        && load in Candidates(old(Cases()), now, sla) - locked
        && (forall other :: other in Candidates(old(Cases()), now, sla) - locked ==>
              && old(shipments)[load].created <= old(shipments)[other].created
              && (old(shipments)[load].created == old(shipments)[other].created ==> ids[load] <= ids[other]))
        && Cases() == old(Cases())[load := ReconcileCase(docs, RateFor(load), old(Cases())[load], now, sla)]
        && results == StoreResult(old(results), SweepResult(docs, RateFor(load), load, old(shipments)[load], now, sla))
    {
      claimed := OldestCandidate(now, sla, locked);
      if claimed.Some? {
        EvaluateClaim(claimed.value, now, sla);
      }
    }

    /** One claim of the sweep, when those still to do are the candidates: nothing is left but locked
        shipments, or the claimed one is done. */
    method SweepOne(ghost start: map<string, Case>, ghost todo: set<string>, now: int, sla: int, locked: set<string>)
      returns (more: bool, ghost later: set<string>)
      requires Valid() && todo <= Candidates(start, now, sla)
      requires Cases() == SweptExcept(start, todo, docs, rates, now, sla)
      modifies this
      ensures Valid() && docs == old(docs) && rates == old(rates)
      ensures Cases() == SweptExcept(start, later, docs, rates, now, sla)
      ensures more ==> OneClaimed(todo, later, locked)
      ensures !more ==> later == todo && todo - locked == {}
    {
      SweptCandidates(start, todo, docs, rates, now, sla);
      var claimed := ClaimAndEvaluateOne(now, sla, locked);
      more, later := claimed.Some?, todo;
      if more {
        SweptOneMore(start, todo, claimed.value, docs, rates, now, sla);
        later := todo - {claimed.value};
        assert claimed.value in todo - locked;
      }
    }

    /** The sweep terminates: every claim strictly shrinks the candidates. It reconciles each initial
        candidate that nobody else has locked exactly once, touches nothing else, and leaves none of
        those. Afterwards each shipment, but the locked candidates, has an exception that agrees
        with its paperwork if and only if the one it had before, if active, was current. */
    method ScanMissingDocumentSlas(now: int, sla: int, locked: set<string>) returns (count: nat)
      requires Valid()
      modifies this
      ensures Valid() && docs == old(docs) && rates == old(rates)
      ensures count == |Candidates(old(Cases()), now, sla) - locked|
      ensures Candidates(Cases(), now, sla) == Candidates(old(Cases()), now, sla) * locked
      ensures Cases() == SweptExcept(old(Cases()), Candidates(old(Cases()), now, sla) * locked, docs, rates, now, sla)
      ensures AgreeIffCurrent(old(Cases()), Cases(), Candidates(old(Cases()), now, sla) * locked, now, sla)
    {
      count := 0;
      ghost var start := Cases();
      ghost var all := Candidates(start, now, sla);
      ghost var todo := all;
      SweptNothing(start, docs, rates, now, sla);
      var more := true;
      while more
        invariant Valid() && docs == old(docs) && rates == old(rates)
        invariant all * locked <= todo <= all
        invariant count + |todo - locked| == |all - locked|
        invariant Cases() == SweptExcept(start, todo, docs, rates, now, sla)
        invariant !more ==> todo - locked == {}
        decreases todo, more
      {
        ghost var before := todo;
        more, todo := SweepOne(start, todo, now, sla, locked);
        if more {
          OneFewer(before, todo, locked);
          count := count + 1;
        }
      }
      assert todo == all * locked;
      SweptCandidates(start, todo, docs, rates, now, sla);
      SweptAgree(start, todo, docs, rates, now, sla);
    }
  }

  /** One shipment that is not locked is done. */
  ghost predicate OneClaimed(todo: set<string>, later: set<string>, locked: set<string>) {
    exists load :: load in todo - locked && later == todo - {load}
  }

  lemma OneFewer(todo: set<string>, later: set<string>, locked: set<string>)
    requires OneClaimed(todo, later, locked)
    ensures todo * locked <= later < todo && |later - locked| == |todo - locked| - 1
  {
    var load :| load in todo - locked && later == todo - {load};
    assert later - locked == (todo - locked) - {load};
  }

  /** The result row a sweep stores for a shipment, under the key of its deadline and gaps. */
  function SweepResult(docs: map<int, Document>, rate: Option<Rate>, load: string, s: Shipment, now: int,
                       sla: int): ResultRow {
    ResultRow(ForSweep(load, s.created + sla, Missing(REQUIRED, s.has)), load, EvaluateCase(docs, rate, s, now, sla))
  }

  /** So a sweep that finds the same deadline and the same gaps again replaces its result. */
  lemma SweepKeyIs(docs: map<int, Document>, rate: Option<Rate>, load: string, s: Shipment, now: int, sla: int)
    ensures SweepResult(docs, rate, load, s, now, sla).key == ForSweep(load, s.created + sla, NotIn(s.has))
  {
    RequiredMissing(s.has);
  }

  /** Each shipment outside the given ones has an exception that agrees with its paperwork exactly when
      the one it had before, if active, was current. */
  ghost predicate AgreeIffCurrent(before: map<string, Case>, after: map<string, Case>, spared: set<string>, now: int,
                                  sla: int) {
    && before.Keys == after.Keys
    && forall load :: load in before && load !in spared ==>
          (Agrees(after[load], now, sla) <==> Current(before[load], now, sla))
  }

  lemma SweptAgree(cases: map<string, Case>, todo: set<string>, docs: map<int, Document>,
                   rates: map<string, Rate>, now: int, sla: int)
    ensures AgreeIffCurrent(cases, SweptExcept(cases, todo, docs, rates, now, sla), todo, now, sla)
  {
    forall load | load in cases && load !in todo
      ensures Agrees(SweptExcept(cases, todo, docs, rates, now, sla)[load], now, sla) <==>
                Current(cases[load], now, sla)
    {
      SweepAgreement(docs, RateIn(rates, load), cases[load], now, sla,
          Swept(docs, RateIn(rates, load), cases[load], now, sla));
    }
  }

  function RateIn(rates: map<string, Rate>, load: string): Option<Rate> {
    if load in rates then Some(rates[load]) else None
  }

  function Candidates(cases: map<string, Case>, now: int, sla: int): set<string> {
    set load | load in cases && IsCandidate(cases[load], now, sla)
  }

  /** Every case after its sweep, except that those still to do are as they were. */
  function SweptExcept(cases: map<string, Case>, todo: set<string>, docs: map<int, Document>,
                       rates: map<string, Rate>, now: int, sla: int): map<string, Case> {
    map load | load in cases ::
      if load in todo then cases[load] else Swept(docs, RateIn(rates, load), cases[load], now, sla)
  }

  lemma SweptNothing(cases: map<string, Case>, docs: map<int, Document>, rates: map<string, Rate>, now: int, sla: int)
    ensures SweptExcept(cases, Candidates(cases, now, sla), docs, rates, now, sla) == cases
  {
  }

  /** The candidates that remain are exactly those still to do. */
  lemma SweptCandidates(cases: map<string, Case>, todo: set<string>, docs: map<int, Document>,
                        rates: map<string, Rate>, now: int, sla: int)
    requires todo <= Candidates(cases, now, sla)
    ensures Candidates(SweptExcept(cases, todo, docs, rates, now, sla), now, sla) == todo
  {
    forall load | load in cases && load !in todo
      ensures !IsCandidate(Swept(docs, RateIn(rates, load), cases[load], now, sla), now, sla)
    {
      SweepAgreement(docs, RateIn(rates, load), cases[load], now, sla,
                     Swept(docs, RateIn(rates, load), cases[load], now, sla));
    }
  }

  lemma SweptOneMore(cases: map<string, Case>, todo: set<string>, load: string, docs: map<int, Document>,
                     rates: map<string, Rate>, now: int, sla: int)
    requires todo <= Candidates(cases, now, sla) && load in todo
    ensures SweptExcept(cases, todo, docs, rates, now, sla)[load :=
              ReconcileCase(docs, RateIn(rates, load), cases[load], now, sla)]
         == SweptExcept(cases, todo - {load}, docs, rates, now, sla)
  {
  }
}
