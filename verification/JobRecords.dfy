/** The document and the workflow run of a job, created once per idempotency key however many
    deliveries and workers ask for them at the same time. */
module JobRecords {
  import opened Options
  import opened Delivery

  /** The two tables: the document of each key, which is unique, and the run of each document. */
  datatype Tables = Tables(docs: map<Key, nat>, runs: map<nat, Key>)

  datatype Lookup =
    | Selecting
    | Inserting
    | Conflicted            // the unique key was taken; rolled back
    | Found(doc: nat)
    | MissingRun            // a document without its run
    | MissingDocument       // a conflict, and then no document

  datatype Asker = Asker(key: Key, step: Lookup)

  datatype State = State(tables: Tables, askers: map<nat, Asker>)

  datatype Event =
    | Ask(t: nat, key: Key)
    | Select(t: nat)
    | Insert(t: nat, doc: nat)      // flush and commit document and run together
    | Reselect(t: nat)
    | Crash(t: nat)

  function RunOf(tables: Tables, key: Key): Lookup
    requires key in tables.docs
  {
    if tables.docs[key] in tables.runs then Found(tables.docs[key]) else MissingRun
  }

  function Inserted(tables: Tables, key: Key, doc: nat): Tables {
    Tables(tables.docs[key := doc], tables.runs[doc := key])
  }

  function Moved(s: State, t: nat, step: Lookup): State
    requires t in s.askers
  {
    s.(askers := s.askers[t := s.askers[t].(step := step)])
  }

  function Next(s: State, e: Event): State {
    if e.Ask? then if e.t in s.askers then s else s.(askers := s.askers[e.t := Asker(e.key, Selecting)])
    else if e.t !in s.askers then s
    else
      var key := s.askers[e.t].key;
      match (e, s.askers[e.t].step)
      case (Select(t), Selecting) => Moved(s, t, if key in s.tables.docs then RunOf(s.tables, key) else Inserting)
      case (Insert(t, doc), Inserting) =>
        if key in s.tables.docs then Moved(s, t, Conflicted)
        else if doc in s.tables.runs then s
        else Moved(s.(tables := Inserted(s.tables, key, doc)), t, Found(doc))
      case (Reselect(t), Conflicted) =>
        Moved(s, t, if key in s.tables.docs then RunOf(s.tables, key) else MissingDocument)
      case (Crash(t), _) => s.(askers := s.askers - {t})
      case _ => s
  }

  function After(trace: seq<Event>): State {
    if trace == [] then State(Tables(map[], map[]), map[])
    else Next(After(trace[..|trace| - 1]), trace[|trace| - 1])
  }

  /** Documents and runs are paired off, one of each per key. */
  predicate Paired(tables: Tables) {
    && (forall key :: key in tables.docs ==> tables.docs[key] in tables.runs && tables.runs[tables.docs[key]] == key)
    && (forall doc :: doc in tables.runs ==> tables.runs[doc] in tables.docs && tables.docs[tables.runs[doc]] == doc)
  }

  predicate AskerSound(tables: Tables, a: Asker) {
    match a.step
    case Selecting => true
    case Inserting => true
    case Conflicted => a.key in tables.docs
    case Found(doc) => a.key in tables.docs && tables.docs[a.key] == doc
    case MissingRun => false
    case MissingDocument => false
  }

  predicate Sound(s: State) {
    Paired(s.tables) && forall t :: t in s.askers ==> AskerSound(s.tables, s.askers[t])
  }

  lemma InsertPaired(tables: Tables, key: Key, doc: nat)
    requires Paired(tables) && key !in tables.docs && doc !in tables.runs
    ensures Paired(Inserted(tables, key, doc))
  {
  }

  lemma StepSound(s: State, e: Event, after: State)
    requires Sound(s) && after == Next(s, e)
    ensures Sound(after)
    ensures forall key :: key in s.tables.docs ==>
              key in after.tables.docs && after.tables.docs[key] == s.tables.docs[key]
  {
    if e.Insert? && after.tables != s.tables {
      InsertPaired(s.tables, s.askers[e.t].key, e.doc);
    }
    forall t | t in after.askers ensures AskerSound(after.tables, after.askers[t]) {
      assert t in s.askers ==> AskerSound(s.tables, s.askers[t]);
    }
  }

  lemma {:induction false} EveryRunSound(trace: seq<Event>) returns (s: State)
    ensures s == After(trace) && Sound(s)
    decreases |trace|
  {
    s := After(trace);
    if trace != [] {
      var before := EveryRunSound(trace[..|trace| - 1]);
      StepSound(before, trace[|trace| - 1], s);
    }
  }

  /** Over any deliveries, creation races and crashes: a key has at most one document, which has
      exactly one run, whichever asker gets an answer gets that one, and nobody ever finds a
      document without its run. */
  lemma OneRunPerKey(trace: seq<Event>, t: nat, u: nat) returns (s: State)
    ensures s == After(trace)
    ensures |s.tables.docs| == |s.tables.runs|
    ensures t in s.askers ==> !s.askers[t].step.MissingRun? && !s.askers[t].step.MissingDocument?
    ensures t in s.askers && s.askers[t].step.Found? ==>
              && s.askers[t].key in s.tables.docs && s.tables.docs[s.askers[t].key] == s.askers[t].step.doc
              && s.askers[t].step.doc in s.tables.runs && s.tables.runs[s.askers[t].step.doc] == s.askers[t].key
    ensures t in s.askers && u in s.askers && s.askers[t].step.Found? && s.askers[u].step.Found? ==>
              (s.askers[t].key == s.askers[u].key <==> s.askers[t].step.doc == s.askers[u].step.doc)
  {
    s := EveryRunSound(trace);
    assert t in s.askers ==> AskerSound(s.tables, s.askers[t]);
    assert u in s.askers ==> AskerSound(s.tables, s.askers[u]);
    SameSize(s.tables);
  }

  /** An asker with nobody in between gets the key's document, or the new one with its run. */
  lemma AskerAlone(s: State, t: nat, key: Key, doc: nat) returns (after: State)
    requires Sound(s) && t !in s.askers && doc !in s.tables.runs
    ensures after == Next(Next(Next(s, Ask(t, key)), Select(t)), Insert(t, doc))
    ensures t in after.askers && after.askers[t] ==
              Asker(key, Found(if key in s.tables.docs then s.tables.docs[key] else doc))
    ensures key in s.tables.docs ==> after.tables == s.tables
    ensures key !in s.tables.docs ==>
              after.tables.docs == s.tables.docs[key := doc] && after.tables.runs == s.tables.runs[doc := key]
  {
    var asked := Next(s, Ask(t, key));
    var selected := Next(asked, Select(t));
    after := Next(selected, Insert(t, doc));
  }

  /** Two askers that both found nothing: the first insert wins, and the other one, after its conflict,
      gets the winner's document. */
  lemma RaceEndsTogether(s: State, t: nat, u: nat, key: Key, doc: nat, other: nat) returns (after: State)
    requires Sound(s) && t != u && t in s.askers && u in s.askers && key !in s.tables.docs && doc !in s.tables.runs
    requires s.askers[t] == Asker(key, Inserting) && s.askers[u] == Asker(key, Inserting)
    ensures after == Next(Next(Next(s, Insert(t, doc)), Insert(u, other)), Reselect(u))
    ensures after.askers == s.askers[t := Asker(key, Found(doc))][u := Asker(key, Found(doc))]
    ensures after.tables.docs == s.tables.docs[key := doc] && after.tables.runs == s.tables.runs[doc := key]
  {
    var won := Next(s, Insert(t, doc));
    var lost := Next(won, Insert(u, other));
    after := Next(lost, Reselect(u));
    assert after.askers == s.askers[t := Asker(key, Found(doc))][u := Asker(key, Found(doc))];
  }

  lemma {:induction false} SameSize(tables: Tables)
    requires Paired(tables)
    ensures |tables.docs| == |tables.runs|
    decreases |tables.docs|
  {
    if tables.docs == map[] {
      assert tables.runs == map[];
    } else {
      var key :| key in tables.docs;
      var doc := tables.docs[key];
      var fewer := Tables(tables.docs - {key}, tables.runs - {doc});
      assert tables.docs == fewer.docs[key := doc] && tables.runs == fewer.runs[doc := key];
      SameSize(fewer);
    }
  }

  // ------------------------------------------------------------- the worker's code

  class Store {
    var docs: map<Key, nat>
    var runs: map<nat, Key>

    ghost predicate Valid()
      reads this
    {
      Paired(Tables(docs, runs))
    }

    constructor ()
      ensures Valid() && docs == map[] && runs == map[]
    {
      docs, runs := map[], map[];
    }

    /** Somebody else's commit for the same key, between the select and the insert. */
    method Rival(key: Key, doc: nat)
      requires Valid() && doc !in runs
      modifies this
      ensures Valid() && key in docs
      ensures docs == if key in old(docs) then old(docs) else old(docs)[key := doc]
      ensures runs == if key in old(docs) then old(runs) else old(runs)[doc := key]
    {
      if key !in docs {
        InsertPaired(Tables(docs, runs), key, doc);
        docs, runs := docs[key := doc], runs[doc := key];
      }
    }

    /** Look the document up, or insert it with its run; on a conflict look it up again. Neither
        lookup can come back without a run. */
    method GetOrCreate(key: Key, newDoc: nat, rival: Option<nat>) returns (found: Lookup)
      requires Valid() && newDoc !in runs && (rival.Some? ==> rival.value !in runs && rival.value != newDoc)
      modifies this
      ensures Valid() && found.Found?
      ensures docs == if key in old(docs) then old(docs) else old(docs)[key := found.doc]
      ensures runs == if key in old(docs) then old(runs) else old(runs)[found.doc := key]
      ensures found.doc == if key in old(docs) then old(docs)[key] else if rival.Some? then rival.value else newDoc
    {
      if key in docs {
        return if docs[key] in runs then Found(docs[key]) else MissingRun;
      }
      if rival.Some? {
        Rival(key, rival.value);
      }
      if key in docs {
        return if docs[key] in runs then Found(docs[key]) else MissingRun;
      }
      InsertPaired(Tables(docs, runs), key, newDoc);
      docs, runs := docs[key := newDoc], runs[newDoc := key];
      found := Found(newDoc);
    }
  }
}
