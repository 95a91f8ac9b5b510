/** Mail intake: which attachments of a message are jobs, and the poll that queues all of a message's
    jobs before it marks the message read. */
module Intake {
  import opened Options
  import opened StreamIds
  import opened Delivery
  import opened QueueStore

  // ----------------------------------------------------------------------- MIME parts

  /** A message part. `supported` is what the file name's extension says; `content` whether the
      body has data or an attachment id; `id` is the part's id, or else the attachment's. */
  datatype Part = Part(nested: seq<Part>, id: string, name: string, supported: bool, content: bool)

  predicate IsAttachment(p: Part) {
    p.name != "" && p.supported && p.content
  }

  /** Every part of the tree, children before their parent, in order. */
  function AllParts(parts: seq<Part>): seq<Part>
    decreases parts
  {
    if parts == [] then []
    else
      var n := |parts| - 1;
      AllParts(parts[..n]) + AllParts(parts[n].nested) + [parts[n]]
  }

  function Attachments(parts: seq<Part>): seq<Part>
    decreases |parts|
  {
    if parts == [] then []
    else
      var n := |parts| - 1;
      Attachments(parts[..n]) + (if IsAttachment(parts[n]) then [parts[n]] else [])
  }

  /** Some part of the tree, at any depth. */
  predicate InTree(parts: seq<Part>, p: Part)
    decreases parts
  {
    exists i :: 0 <= i < |parts| && (parts[i] == p || InTree(parts[i].nested, p))
  }

  lemma {:induction false} TreeSplits(parts: seq<Part>, n: nat, p: Part)
    requires |parts| == n + 1
    ensures InTree(parts, p) <==> InTree(parts[..n], p) || parts[n] == p || InTree(parts[n].nested, p)
  {
    if InTree(parts, p) {
      var i :| 0 <= i < |parts| && (parts[i] == p || InTree(parts[i].nested, p));
      assert i < n ==> parts[..n][i] == parts[i];
    }
    if InTree(parts[..n], p) {
      var i :| 0 <= i < n && (parts[..n][i] == p || InTree(parts[..n][i].nested, p));
      assert parts[i] == parts[..n][i];
    }
  }

  lemma {:induction false} AllPartsIsTree(parts: seq<Part>, p: Part)
    ensures p in AllParts(parts) <==> InTree(parts, p)
    decreases parts
  {
    if parts != [] {
      var n := |parts| - 1;
      AllPartsIsTree(parts[..n], p);
      AllPartsIsTree(parts[n].nested, p);
      TreeSplits(parts, n, p);
    }
  }

  lemma {:induction false} AttachmentsMembers(parts: seq<Part>, p: Part)
    ensures p in Attachments(parts) <==> p in parts && p.name != "" && p.supported && p.content
    decreases |parts|
  {
    if parts != [] {
      var n := |parts| - 1;
      AttachmentsMembers(parts[..n], p);
      assert parts == parts[..n] + [parts[n]];
    }
  }

  /** What an attachment is: a part of the tree with a file name, of a supported kind, with content. */
  lemma AttachmentIff(parts: seq<Part>, p: Part)
    ensures p in Attachments(AllParts(parts)) <==> InTree(parts, p) && p.name != "" && p.supported && p.content
  {
    AttachmentsMembers(AllParts(parts), p);
    AllPartsIsTree(parts, p);
  }

  lemma {:induction false} AttachmentsAppend(a: seq<Part>, b: seq<Part>)
    ensures Attachments(a + b) == Attachments(a) + Attachments(b)
    decreases |b|
  {
    if b == [] {
      assert a + b == a;
    } else {
      var n := |b| - 1;
      assert (a + b)[..|a| + n] == a + b[..n];
      AttachmentsAppend(a, b[..n]);
    }
  }

  lemma OnePart(p: Part)
    ensures Attachments([p]) == if IsAttachment(p) then [p] else []
  {
    assert [p][..0] == [];
    assert Attachments([p][..0]) == [];
  }

  lemma NextPart(parts: seq<Part>, k: nat)
    requires k < |parts|
    ensures Attachments(AllParts(parts[..k + 1])) ==
              Attachments(AllParts(parts[..k])) + Attachments(AllParts(parts[k].nested)) +
              (if IsAttachment(parts[k]) then [parts[k]] else [])
  {
    assert parts[..k + 1][..k] == parts[..k];
    AttachmentsAppend(AllParts(parts[..k]), AllParts(parts[k].nested));
    AttachmentsAppend(AllParts(parts[..k]) + AllParts(parts[k].nested), [parts[k]]);
    OnePart(parts[k]);
  }

  /** Walk the tree part by part, nested parts first. The result is every supported attachment of
      the whole tree, once for each place it stands. */
  method IterAttachmentParts(parts: seq<Part>) returns (attachments: seq<Part>)
    ensures attachments == Attachments(AllParts(parts))
    ensures forall p :: p in attachments <==> InTree(parts, p) && p.name != "" && p.supported && p.content
    decreases parts
  {
    attachments := [];
    var k := 0;
    while k < |parts|
      invariant k <= |parts| && attachments == Attachments(AllParts(parts[..k]))
    {
      var part := parts[k];
      NextPart(parts, k);
      var inner: seq<Part> := [];
      if part.nested != [] {
        inner := IterAttachmentParts(part.nested);
      }
      attachments := attachments + inner;
      if part.name != "" && part.supported && part.content {
        attachments := attachments + [part];
      }
      k := k + 1;
    }
    assert parts[..k] == parts;
    forall p ensures p in attachments <==> InTree(parts, p) && p.name != "" && p.supported && p.content {
      AttachmentIff(parts, p);
    }
  }

  // ------------------------------------------------------------------------- the poll

  /** An unread message as the mailbox returns it. */
  datatype Message = Message(id: string, parts: seq<Part>)

  /** The text whose digest is the idempotency key; the digest is taken to keep texts apart. */
  function JobKey(account: string, message: string, part: string): Key {
    "gmail:v1\0" + account + "\0" + message + "\0" + part
  }

  /** A text without a separator ends where the first separator is. */
  lemma SplitsOnce(a: string, x: string, b: string, y: string)
    requires '\0' !in a && '\0' !in b && a + "\0" + x == b + "\0" + y
    ensures a == b && x == y
  {
    var text := a + "\0" + x;
    assert text[|a|] == '\0' && text[|b|] == '\0';
    assert forall i :: 0 <= i < |a| ==> text[i] == a[i];
    assert forall i :: 0 <= i < |b| ==> text[i] == b[i];
    assert |a| == |b|;
    assert text[..|a|] == a && text[..|b|] == b;
    assert text[|a| + 1..] == x && text[|b| + 1..] == y;
  }

  /** Two attachments have the same key if and only if they are the same part of the same message of the
      same account, none of whose first two names holds a separator. */
  lemma SameKeyIff(account: string, message: string, part: string, account': string, message': string, part': string)
    requires '\0' !in account && '\0' !in message && '\0' !in account' && '\0' !in message'
    ensures JobKey(account, message, part) == JobKey(account', message', part')
       <==> account == account' && message == message' && part == part'
  {
    if JobKey(account, message, part) == JobKey(account', message', part') {
      var rest, rest' := message + "\0" + part, message' + "\0" + part';
      assert JobKey(account, message, part) == "gmail:v1\0" + (account + "\0" + rest);
      assert JobKey(account', message', part') == "gmail:v1\0" + (account' + "\0" + rest');
      assert JobKey(account, message, part)[9..] == account + "\0" + rest;
      assert JobKey(account', message', part')[9..] == account' + "\0" + rest';
      SplitsOnce(account, rest, account', rest');
      SplitsOnce(message, part, message', part');
    }
  }

  function KeysOf(account: string, message: string, attachments: seq<Part>): seq<Key> {
    seq(|attachments|, i requires 0 <= i < |attachments| => JobKey(account, message, attachments[i].id))
  }

  /** One key for each supported attachment of the message's whole part tree. */
  function JobKeys(account: string, m: Message): seq<Key> {
    KeysOf(account, m.id, Attachments(AllParts(m.parts)))
  }

  function JobFields(key: Key): Fields {
    Fields(Some(Job(key)), None)
  }

  /** What queueing does to the stream and the dedupe keys: nothing is taken away; every new entry is
      the job of a key that had no dedupe entry; and every key that is new names such an entry, which
      is live. So there is exactly one new entry for each new key, and none for any other. */
  predicate Queued(live: map<Id, Fields>, dedupe: map<Key, Id>, later: map<Id, Fields>, laterDedupe: map<Key, Id>) {
    && (forall key :: key in dedupe ==> key in laterDedupe && laterDedupe[key] == dedupe[key])
    && (forall id :: id in live ==> id in later && later[id] == live[id])
    && (forall id :: id in later && id !in live ==> NewJob(dedupe, later[id], id, laterDedupe))
    && (forall key :: key in laterDedupe && key !in dedupe ==> HasEntry(later, laterDedupe[key], key))
  }

  predicate NewJob(dedupe: map<Key, Id>, fields: Fields, id: Id, laterDedupe: map<Key, Id>) {
    && Parses(fields) && fields == JobFields(KeyOf(fields))
    && KeyOf(fields) !in dedupe && KeyOf(fields) in laterDedupe && laterDedupe[KeyOf(fields)] == id
  }

  predicate HasEntry(live: map<Id, Fields>, id: Id, key: Key) {
    id in live && live[id] == JobFields(key)
  }

  lemma QueuedFurther(l0: map<Id, Fields>, d0: map<Key, Id>, l1: map<Id, Fields>, d1: map<Key, Id>,
                      l2: map<Id, Fields>, d2: map<Key, Id>)
    requires Queued(l0, d0, l1, d1) && Queued(l1, d1, l2, d2)
    ensures Queued(l0, d0, l2, d2)
  {
    forall id | id in l2 && id !in l0 ensures NewJob(d0, l2[id], id, d2) {
      if id in l1 {
        assert NewJob(d0, l1[id], id, d1);
      } else {
        assert NewJob(d1, l2[id], id, d2);
      }
    }
    forall key | key in d2 && key !in d0 ensures HasEntry(l2, d2[key], key) {
      assert key in d1 ==> HasEntry(l1, d1[key], key);
    }
  }

  predicate AllIn(keys: seq<Key>, dedupe: map<Key, Id>) {
    forall k :: 0 <= k < |keys| ==> keys[k] in dedupe
  }

  /** Every new key is one of these. */
  predicate OnlyNew(keys: seq<Key>, dedupe: map<Key, Id>, later: map<Key, Id>) {
    forall key :: key in later && key !in dedupe ==> key in keys
  }

  lemma StillIn(keys: seq<Key>, l0: map<Id, Fields>, d0: map<Key, Id>, l1: map<Id, Fields>, d1: map<Key, Id>)
    requires AllIn(keys, d0) && Queued(l0, d0, l1, d1)
    ensures AllIn(keys, d1)
  {
  }

  /** What goes wrong with one message: nothing, the download, some enqueue, or marking it read. */
  datatype Faults = Faults(download: bool, enqueue: nat -> bool, mark: bool)

  /** Does polling a message with these jobs end in an exception? */
  ghost predicate Fails(jobs: seq<Key>, faults: Faults) {
    faults.download || (jobs != [] && (faults.mark || exists k :: 0 <= k < |jobs| && faults.enqueue(k)))
  }

  class Inbox {
    const account: string
    var unread: set<string>

    constructor (account: string, unread: set<string>)
      ensures this.account == account && this.unread == unread
    {
      this.account, this.unread := account, unread;
    }

    /** Queue one job, under an id the stream makes up. */
    method QueueJob(store: Store, key: Key)
      requires store.Tracks()
      modifies store
      ensures store.Tracks() && key in store.dedupe && OnlyNew([key], old(store.dedupe), store.dedupe)
      ensures Queued(old(store.live), old(store.dedupe), store.live, store.dedupe)
      ensures key in old(store.dedupe) ==> store.live == old(store.live) && store.dedupe == old(store.dedupe)
    {
      var newId := Id(store.last.ms + 1, 0);
      store.LiveIdsAreOld(newId);
      var id := store.EnqueueJob(key, newId);
    }

    /** One more job of a message, after the first `k`. */
    method QueueNext(store: Store, jobs: seq<Key>, k: nat, ghost live0: map<Id, Fields>, ghost dedupe0: map<Key, Id>)
      requires store.Tracks() && k < |jobs| && AllIn(jobs[..k], store.dedupe)
      requires Queued(live0, dedupe0, store.live, store.dedupe)
      modifies store
      ensures store.Tracks() && AllIn(jobs[..k + 1], store.dedupe)
      ensures Queued(live0, dedupe0, store.live, store.dedupe)
      ensures jobs[k] in old(store.dedupe) ==> store.live == old(store.live) && store.dedupe == old(store.dedupe)
      ensures OnlyNew(jobs, old(store.dedupe), store.dedupe)
    {
      ghost var live1, dedupe1 := store.live, store.dedupe;
      QueueJob(store, jobs[k]);
      StillIn(jobs[..k], live1, dedupe1, store.live, store.dedupe);
      QueuedFurther(live0, dedupe0, live1, dedupe1, store.live, store.dedupe);
    }

    /** Queue a message's jobs in order, until one raises; `fails(k)` is whether the k-th does. */
    method QueueJobs(store: Store, jobs: seq<Key>, fails: nat -> bool) returns (ok: bool)
      requires store.Tracks()
      modifies store
      ensures store.Tracks() && Queued(old(store.live), old(store.dedupe), store.live, store.dedupe)
      ensures ok <==> forall k :: 0 <= k < |jobs| ==> !fails(k)
      ensures ok ==> AllIn(jobs, store.dedupe)
      ensures OnlyNew(jobs, old(store.dedupe), store.dedupe)
      ensures AllIn(jobs, old(store.dedupe)) ==> store.live == old(store.live) && store.dedupe == old(store.dedupe)
    {
      var k := 0;
      while k < |jobs|
        invariant k <= |jobs| && store.Tracks() && AllIn(jobs[..k], store.dedupe)
        invariant Queued(old(store.live), old(store.dedupe), store.live, store.dedupe)
        invariant forall j :: 0 <= j < k ==> !fails(j)
        invariant OnlyNew(jobs, old(store.dedupe), store.dedupe)
        invariant AllIn(jobs, old(store.dedupe)) ==> store.live == old(store.live) && store.dedupe == old(store.dedupe)
      {
        if fails(k) {
          return false;
        }
        QueueNext(store, jobs, k, old(store.live), old(store.dedupe));
        k := k + 1;
      }
      assert jobs[..k] == jobs;
      ok := true;
    }

    /** Download a message's supported attachments, and the key of each. */
    method DownloadJobs(message: Message) returns (jobs: seq<Key>)
      ensures jobs == JobKeys(account, message)
    {
      var attachments := IterAttachmentParts(message.parts);
      jobs := [];
      while |jobs| < |attachments|
        invariant |jobs| <= |attachments|
        invariant forall i :: 0 <= i < |jobs| ==> jobs[i] == JobKey(account, message.id, attachments[i].id)
      {
        jobs := jobs + [JobKey(account, message.id, attachments[|jobs|].id)];
      }
    }

    /** One message: no attachments, nothing to do; otherwise all its jobs first, then read. */
    method PollMessage(store: Store, message: Message, faults: Faults) returns (ok: bool)
      requires store.Tracks()
      modifies this`unread, store
      ensures store.Tracks() && Queued(old(store.live), old(store.dedupe), store.live, store.dedupe)
      ensures ok <==> !Fails(JobKeys(account, message), faults)
      ensures unread == if ok && JobKeys(account, message) != [] then old(unread) - {message.id} else old(unread)
      ensures ok ==> AllIn(JobKeys(account, message), store.dedupe)
      ensures OnlyNew(JobKeys(account, message), old(store.dedupe), store.dedupe)
      ensures AllIn(JobKeys(account, message), old(store.dedupe)) ==>
                store.live == old(store.live) && store.dedupe == old(store.dedupe)
    {
      if faults.download {
        return false;
      }
      var jobs := DownloadJobs(message);
      if jobs == [] {
        return true;
      }
      ok := QueueJobs(store, jobs, faults.enqueue);
      if ok && faults.mark {
        ok := false;
      }
      if ok {
        unread := unread - {message.id};
      }
    }

    /** The next message, and how many of those handled had jobs. */
    method CountNext(store: Store, messages: seq<Message>, k: nat, faults: nat -> Faults, count: nat, ghost start: Mail)
      returns (ok: bool, counted: nat)
      requires store.Tracks() && k < |messages| && count == WithJobs(messages[..k])
      requires PolledTo(account, messages, k, faults, start, Mail(unread, store.live, store.dedupe))
      modifies this`unread, store
      ensures store.Tracks() && (ok <==> !FailsAt(account, messages, faults, k))
      ensures counted == WithJobs(if ok then messages[..k + 1] else messages[..k])
      ensures PolledTo(account, messages, if ok then k + 1 else k, faults, start,
                       Mail(unread, store.live, store.dedupe))
    {
      assert messages[..k + 1][..k] == messages[..k];
      ok := PollNext(store, messages, k, faults, start);
      counted := if ok && HasJobs(messages[k]) then count + 1 else count;
    }

    /** The message after the first `k`, when those are handled. */
    method PollNext(store: Store, messages: seq<Message>, k: nat, faults: nat -> Faults, ghost start: Mail)
      returns (ok: bool)
      requires store.Tracks() && k < |messages|
      requires PolledTo(account, messages, k, faults, start, Mail(unread, store.live, store.dedupe))
      modifies this`unread, store
      ensures store.Tracks() && (ok <==> !FailsAt(account, messages, faults, k))
      ensures PolledTo(account, messages, if ok then k + 1 else k, faults, start, Mail(unread, store.live,
                store.dedupe))
    {
      ghost var before := Mail(unread, store.live, store.dedupe);
      ok := PollMessage(store, messages[k], faults(k));
      ghost var after := Mail(unread, store.live, store.dedupe);
      StillMarked(account, messages[..k], start.unread, before, after);
      if ok {
        MarkedOneMore(account, messages, k, start.unread, before.unread, after);
      }
      QueuedFurther(start.live, start.dedupe, before.live, before.dedupe, after.live, after.dedupe);
      StillNothingNew(account, messages, k, start, before, after);
      StillOfSome(account, messages, k, start, before, after);
    }

    /** Poll the listed messages in order, up to the first exception. The messages handled before it
        are marked read exactly when they have attachments, and each of their attachments then has a
        live or deduplicated entry; the others stay unread; and a poll that finds every key still
        deduplicated adds nothing. */
    method PollInbox(store: Store, messages: seq<Message>, faults: nat -> Faults)
      returns (processed: Option<nat>, ghost handled: nat)
      requires store.Tracks()
      modifies this`unread, store
      ensures store.Tracks() && handled <= |messages|
      ensures PolledTo(account, messages, handled, faults, old(Mail(unread, store.live, store.dedupe)),
                       Mail(unread, store.live, store.dedupe))
      ensures handled < |messages| ==> FailsAt(account, messages, faults, handled)
      ensures processed == if handled == |messages| then Some(WithJobs(messages)) else None
    {
      ghost var start := Mail(unread, store.live, store.dedupe);
      NothingPolled(account, messages, faults, start);
      var count := 0;
      var k: nat := 0;
      handled := 0;
      while k < |messages|
        invariant k <= |messages| && store.Tracks() && handled == k
        invariant PolledTo(account, messages, k, faults, start, Mail(unread, store.live, store.dedupe))
        invariant count == WithJobs(messages[..k])
      {
        var ok;
        ok, count := CountNext(store, messages, k, faults, count, start);
        if !ok {
          return None, k;
        }
        k := k + 1;
        handled := k;
      }
      assert messages[..k] == messages;
      processed := Some(count);
    }
  }

  /** The unread flags with the stream and its dedupe keys. */
  datatype Mail = Mail(unread: set<string>, live: map<Id, Fields>, dedupe: map<Key, Id>)

  /** The first `k` messages went through without an exception: those of them with jobs are read, all
      their jobs are known, whatever is new in the stream is the job of a new key of these messages,
      and nothing is new when every key was known at the start. */
  ghost predicate PolledTo(account: string, messages: seq<Message>, k: nat, faults: nat -> Faults, start: Mail,
                           now: Mail)
    requires k <= |messages|
  {
    && (forall j :: 0 <= j < k ==> !FailsAt(account, messages, faults, j))
    && MarkedAndQueued(account, messages[..k], start.unread, now)
    && Queued(start.live, start.dedupe, now.live, now.dedupe)
    && (forall key :: key in now.dedupe && key !in start.dedupe ==> OfSome(account, messages, key))
    && (AllQueued(account, messages, start.dedupe) ==> now.live == start.live && now.dedupe == start.dedupe)
  }

  lemma NothingPolled(account: string, messages: seq<Message>, faults: nat -> Faults, start: Mail)
    ensures PolledTo(account, messages, 0, faults, start, start)
  {
  }

  lemma StillNothingNew(account: string, messages: seq<Message>, k: nat, start: Mail, before: Mail, after: Mail)
    requires k < |messages|
    requires AllQueued(account, messages, start.dedupe) ==> before.live == start.live && before.dedupe == start.dedupe
    requires AllIn(JobKeys(account, messages[k]), before.dedupe) ==>
              after.live == before.live && after.dedupe == before.dedupe
    ensures AllQueued(account, messages, start.dedupe) ==> after.live == start.live && after.dedupe == start.dedupe
  {
    if AllQueued(account, messages, start.dedupe) {
      assert AllIn(JobKeys(account, messages[k]), start.dedupe);
    }
  }

  ghost predicate OfSome(account: string, messages: seq<Message>, key: Key) {
    exists i :: 0 <= i < |messages| && key in JobKeys(account, messages[i])
  }

  lemma StillOfSome(account: string, messages: seq<Message>, k: nat, start: Mail, before: Mail, after: Mail)
    requires k < |messages| && OnlyNew(JobKeys(account, messages[k]), before.dedupe, after.dedupe)
    requires forall key :: key in before.dedupe && key !in start.dedupe ==> OfSome(account, messages, key)
    ensures forall key :: key in after.dedupe && key !in start.dedupe ==> OfSome(account, messages, key)
  {
    forall key | key in after.dedupe && key !in start.dedupe ensures OfSome(account, messages, key) {
      if key !in before.dedupe {
        assert key in JobKeys(account, messages[k]);
      }
    }
  }

  ghost predicate FailsAt(account: string, messages: seq<Message>, faults: nat -> Faults, k: nat)
    requires k < |messages|
  {
    Fails(JobKeys(account, messages[k]), faults(k))
  }

  /** The messages are marked read exactly when they have jobs, and all those jobs are known. */
  ghost predicate MarkedAndQueued(account: string, messages: seq<Message>, unread: set<string>, now: Mail) {
    now.unread == unread - IdsWithJobs(account, messages) && AllQueued(account, messages, now.dedupe)
  }

  predicate HasJobs(m: Message) {
    Attachments(AllParts(m.parts)) != []
  }

  predicate AllQueued(account: string, messages: seq<Message>, dedupe: map<Key, Id>) {
    forall i :: 0 <= i < |messages| ==> AllIn(JobKeys(account, messages[i]), dedupe)
  }

  lemma StillMarked(account: string, messages: seq<Message>, unread: set<string>, before: Mail, after: Mail)
    requires MarkedAndQueued(account, messages, unread, before)
    requires Queued(before.live, before.dedupe, after.live, after.dedupe)
    ensures MarkedAndQueued(account, messages, unread, after.(unread := before.unread))
  {
    StillQueued(account, messages, before.live, before.dedupe, after.live, after.dedupe);
  }

  lemma MarkedOneMore(account: string, messages: seq<Message>, k: nat, unread: set<string>, before: set<string>,
                      after: Mail)
    requires k < |messages| && MarkedAndQueued(account, messages[..k], unread, after.(unread := before))
    requires AllIn(JobKeys(account, messages[k]), after.dedupe)
    requires after.unread == if JobKeys(account, messages[k]) != [] then before - {messages[k].id} else before
    ensures MarkedAndQueued(account, messages[..k + 1], unread, after)
  {
    assert messages[..k + 1][..k] == messages[..k];
  }

  lemma StillQueued(account: string, messages: seq<Message>, l0: map<Id, Fields>, d0: map<Key, Id>,
                    l1: map<Id, Fields>, d1: map<Key, Id>)
    requires AllQueued(account, messages, d0) && Queued(l0, d0, l1, d1)
    ensures AllQueued(account, messages, d1)
  {
    forall i | 0 <= i < |messages| ensures AllIn(JobKeys(account, messages[i]), d1) {
      StillIn(JobKeys(account, messages[i]), l0, d0, l1, d1);
    }
  }

  function IdsWithJobs(account: string, messages: seq<Message>): set<string>
    decreases |messages|
  {
    if messages == [] then {}
    else
      var n := |messages| - 1;
      IdsWithJobs(account, messages[..n]) + (if JobKeys(account, messages[n]) != [] then {messages[n].id} else {})
  }

  /** A message has jobs exactly when some part of it, at any depth, is a supported attachment, and that
      is when it has keys. */
  lemma HasJobsIff(account: string, m: Message)
    ensures HasJobs(m) <==> exists p :: InTree(m.parts, p) && p.name != "" && p.supported && p.content
    ensures HasJobs(m) <==> JobKeys(account, m) != []
  {
    var attachments := Attachments(AllParts(m.parts));
    if attachments != [] {
      AttachmentIff(m.parts, attachments[0]);
    }
    forall p | InTree(m.parts, p) && p.name != "" && p.supported && p.content ensures p in attachments {
      AttachmentIff(m.parts, p);
    }
  }

  function JobsBelow(messages: seq<Message>, n: nat): set<nat>
    requires n <= |messages|
  {
    set i | 0 <= i < n && HasJobs(messages[i])
  }

  /** The count is that of the messages that have attachments. */
  lemma {:induction false} WithJobsIs(messages: seq<Message>, n: nat)
    requires n <= |messages|
    ensures WithJobs(messages[..n]) == |JobsBelow(messages, n)|
    decreases n
  {
    if n > 0 {
      WithJobsIs(messages, n - 1);
      assert messages[..n][..n - 1] == messages[..n - 1];
      assert JobsBelow(messages, n) ==
             JobsBelow(messages, n - 1) + (if HasJobs(messages[n - 1]) then {n - 1} else {});
    }
  }

  function WithJobs(messages: seq<Message>): nat
    decreases |messages|
  {
    if messages == [] then 0
    else
      var n := |messages| - 1;
      WithJobs(messages[..n]) + (if HasJobs(messages[n]) then 1 else 0)
  }
}
