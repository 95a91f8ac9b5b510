/** The two operator loops over the dead letter stream: the batched purge and the cursor pages. */
module DeadLetters {
  import opened Options
  import opened StreamIds
  import opened Delivery

  datatype Entry = Entry(id: Id, original: Option<Id>)

  /** What type Redis reports for the stream's key. */
  datatype KeyKind = Missing | StreamKey | OtherKey

  // ------------------------------------------------------------------ stream order

  predicate Sorted(entries: seq<Entry>) {
    forall i, j :: 0 <= i < j < |entries| ==> Less(entries[i].id, entries[j].id)
  }

  /** How many leading entries lie strictly before an id. */
  function OlderThan(entries: seq<Entry>, bound: Id): (n: nat)
    ensures n <= |entries|
  {
    OlderFrom(entries, bound, 0)
  }

  function OlderFrom(entries: seq<Entry>, bound: Id, k: nat): (n: nat)
    requires k <= |entries|
    ensures k <= n <= |entries|
    decreases |entries| - k
  {
    if k < |entries| && Less(entries[k].id, bound) then OlderFrom(entries, bound, k + 1) else k
  }

  lemma {:induction false} OlderIs(entries: seq<Entry>, bound: Id, n: nat, k: nat)
    requires k <= n <= |entries|
    requires forall i :: k <= i < n ==> Less(entries[i].id, bound)
    requires n < |entries| ==> !Less(entries[n].id, bound)
    ensures OlderFrom(entries, bound, k) == n
    decreases n - k
  {
    if k < n {
      OlderIs(entries, bound, n, k + 1);
    }
  }

  lemma {:induction false} OlderScan(entries: seq<Entry>, bound: Id, k: nat)
    requires k <= |entries|
    ensures var n := OlderFrom(entries, bound, k);
            && (forall i :: k <= i < n ==> Less(entries[i].id, bound))
            && (n < |entries| ==> !Less(entries[n].id, bound))
    decreases |entries| - k
  {
    if k < |entries| && Less(entries[k].id, bound) {
      OlderScan(entries, bound, k + 1);
    }
  }

  /** In stream order the older entries are exactly that prefix. */
  lemma OlderIsPrefix(entries: seq<Entry>, bound: Id)
    requires Sorted(entries)
    ensures forall i :: 0 <= i < |entries| ==> (Less(entries[i].id, bound) <==> i < OlderThan(entries, bound))
  {
    OlderScan(entries, bound, 0);
    var n := OlderThan(entries, bound);
    forall i | n <= i < |entries| ensures !Less(entries[i].id, bound) {
      assert n < i ==> Less(entries[n].id, entries[i].id);
    }
  }

  lemma OlderAfterDrop(entries: seq<Entry>, bound: Id, k: nat)
    requires Sorted(entries) && k <= OlderThan(entries, bound)
    ensures OlderThan(entries[k..], bound) == OlderThan(entries, bound) - k
  {
    OlderIsPrefix(entries, bound);
    OlderIs(entries[k..], bound, OlderThan(entries, bound) - k, 0);
  }

  lemma FirstOlder(entries: seq<Entry>, bound: Id)
    requires Sorted(entries)
    ensures OlderThan(entries, bound) > 0 <==> entries != [] && Less(entries[0].id, bound)
  {
    OlderIsPrefix(entries, bound);
  }

  // -------------------------------------------------------------------------- purge

  function IdsOf(entries: seq<Entry>): set<Id> {
    set i | 0 <= i < |entries| :: entries[i].id
  }

  function OriginalsIn(entries: seq<Entry>): set<Id> {
    set i | 0 <= i < |entries| && entries[i].original.Some? :: entries[i].original.value
  }

  function Min(a: int, b: int): int {
    if a < b then a else b
  }

  /** How many entries a purge may take: the older ones, up to the maximum. */
  function Quota(entries: seq<Entry>, cutoff: Id, most: int): nat {
    if most <= 0 then 0 else Min(most, OlderThan(entries, cutoff))
  }

  datatype Purged = Purged(count: int, hasMore: bool) | WrongType

  datatype Letters = Letters(entries: seq<Entry>, replays: map<Id, ReplayHash>, notes: map<Id, nat>)

  /** Delete the oldest entry, its replay hash and its failure note. */
  function DropOldest(l: Letters): Letters
    requires l.entries != []
  {
    var row := l.entries[0];
    Letters(l.entries[1..], l.replays - {row.id}, l.notes - (if row.original.Some? then {row.original.value} else {}))
  }

  function Without(l: Letters, k: nat): (r: Letters)
    requires k <= |l.entries|
    ensures |r.entries| == |l.entries| - k
  {
    if k == 0 then l else DropOldest(Without(l, k - 1))
  }

  lemma {:induction false} WithoutMore(l: Letters, k: nat, more: nat)
    requires k <= |l.entries| && more <= |l.entries| - k
    ensures Without(Without(l, k), more) == Without(l, k + more)
    decreases more
  {
    if more > 0 {
      WithoutMore(l, k, more - 1);
    }
  }

  /** What a purge leaves: the entries after the prefix, and exactly the metadata that belongs to
      none of the entries in it. */
  lemma {:induction false} WithoutMeans(l: Letters, k: nat)
    requires k <= |l.entries|
    ensures Without(l, k).entries == l.entries[k..]
    ensures Without(l, k).replays == l.replays - IdsOf(l.entries[..k])
    ensures Without(l, k).notes == l.notes - OriginalsIn(l.entries[..k])
    decreases k
  {
    if k > 0 {
      WithoutMeans(l, k - 1);
      assert l.entries[..k] == l.entries[..k - 1] + [l.entries[k - 1]];
      AppendIds(l.entries[..k - 1], l.entries[k - 1]);
      assert Without(l, k - 1).entries[0] == l.entries[k - 1];
    }
  }

  /** A purge takes only entries before the cutoff, oldest first, and spares everything else. */
  lemma PurgeTakesOldest(l: Letters, cutoff: Id, most: int, k: nat)
    requires Sorted(l.entries) && k == Quota(l.entries, cutoff, most)
    ensures k <= |l.entries| && Without(l, k).entries == l.entries[k..]
    ensures forall i :: 0 <= i < k ==> Less(l.entries[i].id, cutoff)
    ensures forall e :: e in l.entries && !Less(e.id, cutoff) ==> e in Without(l, k).entries
    ensures k < most && most > 0 ==> forall e :: e in Without(l, k).entries ==> !Less(e.id, cutoff)
  {
    WithoutMeans(l, k);
    OlderIsPrefix(l.entries, cutoff);
    forall e | e in l.entries && !Less(e.id, cutoff) ensures e in l.entries[k..] {
      var i :| 0 <= i < |l.entries| && l.entries[i] == e;
      assert l.entries[k..][i - k] == e;
    }
  }

  /** With the cutoff of a moment, `ms-0`, the entries taken are the ones whose millisecond time is before
      that moment; the others are spared, and a purge below its maximum leaves only those. */
  lemma CutoffIsMoment(l: Letters, ms: nat, most: int, k: nat)
    requires Sorted(l.entries) && k == Quota(l.entries, Id(ms, 0), most)
    ensures k <= |l.entries| && Without(l, k).entries == l.entries[k..]
    ensures forall i :: 0 <= i < k ==> l.entries[i].id.ms < ms
    ensures forall e :: e in l.entries && e.id.ms >= ms ==> e in Without(l, k).entries
    ensures k < most ==> forall e :: e in Without(l, k).entries ==> e.id.ms >= ms
  {
    PurgeTakesOldest(l, Id(ms, 0), most, k);
  }

  class DeadLetterStore {
    var kind: KeyKind
    var entries: seq<Entry>
    var replays: map<Id, ReplayHash>
    var notes: map<Id, nat>

    ghost predicate Valid()
      reads this
    {
      Sorted(entries) && (kind != StreamKey ==> entries == [])
    }

    ghost function Contents(): Letters
      reads this
    {
      Letters(entries, replays, notes)
    }

    constructor ()
      ensures Valid() && entries == []
    {
      kind, entries, replays, notes := Missing, [], map[], map[];
    }

    /** Delete the oldest entry, its replay hash and its failure note. */
    method DeleteOldest()
      requires Valid() && entries != []
      modifies this`entries, this`replays, this`notes
      ensures Valid() && Contents() == DropOldest(old(Contents()))
    {
      var row := entries[0];
      entries := entries[1..];
      replays := replays - {row.id};
      if row.original.Some? {
        notes := notes - {row.original.value};
      }
    }

    /** One purge script: the oldest `limit` entries before the cutoff, with their metadata. */
    method PurgeBatch(cutoff: Id, limit: nat) returns (removed: nat, remaining: bool)
      requires Valid() && kind != OtherKey
      modifies this`entries, this`replays, this`notes
      ensures Valid()
      ensures removed == Min(limit, old(OlderThan(entries, cutoff))) && removed <= |old(entries)|
      ensures Contents() == Without(old(Contents()), removed)
      ensures OlderThan(entries, cutoff) == old(OlderThan(entries, cutoff)) - removed
      ensures remaining <==> OlderThan(entries, cutoff) > 0
    {
      if kind == Missing {
        return 0, false;
      }
      ghost var was := Contents();
      removed := 0;
      while removed < limit && entries != [] && Less(entries[0].id, cutoff)
        invariant Valid() && removed <= limit && removed <= |was.entries|
        invariant Contents() == Without(was, removed)
        invariant OlderThan(entries, cutoff) == OlderThan(was.entries, cutoff) - removed
        decreases |entries|
      {
        FirstOlder(entries, cutoff);
        OlderAfterDrop(entries, cutoff, 1);
        DeleteOldest();
        removed := removed + 1;
      }
      FirstOlder(entries, cutoff);
      remaining := entries != [] && Less(entries[0].id, cutoff);
    }

    /** Workers dead-letter any number of the entries that are still to come. */
    method Arrive(later: seq<Entry>, arrived: nat) returns (all: nat)
      requires Valid() && kind != OtherKey && arrived <= |later|
      requires Sorted(entries + later[arrived..])
      modifies this`kind, this`entries
      ensures Valid() && kind != OtherKey && arrived <= all <= |later|
      ensures Contents() == Arrived(old(Contents()), later[arrived..all])
      ensures Sorted(entries + later[all..])
    {
      all :| arrived <= all <= |later|;
      assert entries + later[arrived..] == entries + later[arrived..all] + later[all..];
      PrefixSorted(entries + later[arrived..], entries + later[arrived..all]);
      if all > arrived {
        kind, entries := StreamKey, entries + later[arrived..all];
      } else {
        assert entries + later[arrived..all] == entries;
      }
    }

    /** One more batch after earlier ones took `count` entries, and whatever arrives before it. */
    method PurgeAnother(ghost was: Letters, ghost count: nat, cutoff: Id, limit: nat, later: seq<Entry>, arrived: nat)
      returns (removed: nat, remaining: bool, all: nat)
      requires Valid() && kind != OtherKey && arrived <= |later| && Sorted(was.entries + later)
      requires Behind(Contents(), Arrived(was, later[..arrived]), count, cutoff)
      modifies this`kind, this`entries, this`replays, this`notes
      ensures Valid() && kind != OtherKey && arrived <= all <= |later| && removed <= limit
      ensures Behind(Contents(), Arrived(was, later[..all]), count + removed, cutoff)
      ensures removed < limit ==> !remaining
      ensures remaining <==> OlderThan(entries, cutoff) > 0
    {
      StillSorted(was, later, arrived, count);
      all := Arrive(later, arrived);
      ArrivalStaysBehind(was, later, arrived, all, count, cutoff);
      removed, remaining := PurgeBatch(cutoff, limit);
      WithoutMore(Arrived(was, later[..all]), count, removed);
    }

    /** One round of the loop, below the maximum. */
    method PurgeRound(ghost was: Letters, count: nat, cutoff: Id, maxDelete: int, batchSize: int, later: seq<Entry>,
                      arrived: nat) returns (total: nat, hasMore: bool, all: nat, done: bool)
      requires Valid() && kind != OtherKey && arrived <= |later| && Sorted(was.entries + later)
      requires count < maxDelete && batchSize > 0
      requires Behind(Contents(), Arrived(was, later[..arrived]), count, cutoff)
      modifies this`kind, this`entries, this`replays, this`notes
      ensures Valid() && kind != OtherKey && arrived <= all <= |later| && count <= total <= maxDelete
      ensures Behind(Contents(), Arrived(was, later[..all]), total, cutoff)
      ensures hasMore <==> OlderThan(entries, cutoff) > 0
      ensures done <==> !hasMore
      ensures !done ==> total > count
    {
      var limit := Min(batchSize, maxDelete - count);
      var removed;
      removed, hasMore, all := PurgeAnother(was, count, cutoff, limit, later, arrived);
      total := count + removed;
      done := removed < limit || !hasMore;
    }

    /** Purge in batches until the maximum is reached, a batch comes back short, or nothing older
        remains, while workers may dead-letter `later` entries before each batch. What goes are the
        oldest entries there ever were, all before the cutoff, with their replay and failure
        metadata, and everything else stays; at least every older entry of the start goes, up to the
        maximum. */
    method Purge(cutoff: Id, maxDelete: int, batchSize: int, later: seq<Entry>) returns (result: Purged, arrived: nat)
      requires Valid() && batchSize > 0 && Sorted(entries + later)
      modifies this`kind, this`entries, this`replays, this`notes
      ensures Valid() && arrived <= |later|
      ensures result.WrongType? <==> old(kind) == OtherKey && maxDelete > 0
      ensures result.WrongType? ==> Contents() == old(Contents()) && kind == OtherKey
      ensures result.Purged? ==>
                && Taken(old(Contents()), later[..arrived], cutoff, maxDelete, result.count, Contents())
                && (result.hasMore <==> maxDelete > 0 && OlderThan(entries, cutoff) > 0)
                && (result.hasMore ==> result.count == maxDelete)
    {
      ghost var was := Contents();
      arrived := 0;
      var count: nat, hasMore := 0, false;
      assert Arrived(was, later[..0]) == was;
      while count < maxDelete
        invariant Valid() && arrived <= |later| && count <= Max(maxDelete, 0)
        invariant Behind(Contents(), Arrived(was, later[..arrived]), count, cutoff)
        invariant kind == OtherKey <==> old(kind) == OtherKey
        invariant kind == OtherKey ==> count == 0 && Contents() == was
        invariant hasMore <==> count > 0 && OlderThan(entries, cutoff) > 0
        invariant count == 0 || hasMore
        decreases maxDelete - count
      {
        if kind == OtherKey {
          return WrongType, arrived;
        }
        var done;
        count, hasMore, arrived, done := PurgeRound(was, count, cutoff, maxDelete, batchSize, later, arrived);
        if done {
          break;
        }
      }
      result := Purged(count, hasMore);
      BehindIsTaken(was, later, arrived, cutoff, maxDelete, count, Contents());
    }
  }

  /** Entries join at the end; the metadata stays. */
  function Arrived(l: Letters, es: seq<Entry>): Letters {
    l.(entries := l.entries + es)
  }

  /** What is left when the oldest `count` entries went, all of them before the cutoff. */
  ghost predicate Behind(left: Letters, all: Letters, count: nat, cutoff: Id) {
    && count <= OlderThan(all.entries, cutoff)
    && left == Without(all, count)
    && OlderThan(left.entries, cutoff) == OlderThan(all.entries, cutoff) - count
  }

  /** A purge of entries that more joined: it took the oldest of them all, never more than the quota
      of them all and never fewer than the quota of the start. */
  ghost predicate Taken(was: Letters, es: seq<Entry>, cutoff: Id, most: int, count: int, left: Letters) {
    && Quota(was.entries, cutoff, most) <= count <= Quota(was.entries + es, cutoff, most)
    && left == Without(Arrived(was, es), count)
  }

  lemma BehindIsTaken(was: Letters, later: seq<Entry>, arrived: nat, cutoff: Id, most: int, count: nat, left: Letters)
    requires Sorted(was.entries + later) && arrived <= |later|
    requires Behind(left, Arrived(was, later[..arrived]), count, cutoff)
    requires count <= Max(most, 0) && (count >= most || OlderThan(left.entries, cutoff) == 0)
    ensures Taken(was, later[..arrived], cutoff, most, count, left)
  {
    PrefixSorted(was.entries + later, was.entries + later[..arrived]);
    OlderGrows(was.entries, later[..arrived], cutoff);
  }

  lemma StillSorted(was: Letters, later: seq<Entry>, arrived: nat, count: nat)
    requires Sorted(was.entries + later) && arrived <= |later| && count <= |was.entries| + arrived
    ensures Sorted(Without(Arrived(was, later[..arrived]), count).entries + later[arrived..])
  {
    WithoutMeans(Arrived(was, later[..arrived]), count);
    var all := was.entries + later;
    assert (was.entries + later[..arrived])[count..] + later[arrived..] == all[count..];
    SuffixSorted(all, count);
  }

  lemma ArrivalStaysBehind(was: Letters, later: seq<Entry>, arrived: nat, all: nat, count: nat, cutoff: Id)
    requires Sorted(was.entries + later) && arrived <= all <= |later|
    requires count <= OlderThan(was.entries + later[..arrived], cutoff)
    ensures Behind(Arrived(Without(Arrived(was, later[..arrived]), count), later[arrived..all]),
                   Arrived(was, later[..all]), count, cutoff)
  {
    var before, after := was.entries + later[..arrived], was.entries + later[..all];
    assert after == before + later[arrived..all];
    PrefixSorted(was.entries + later, after);
    OlderGrows(before, later[arrived..all], cutoff);
    OlderAfterDrop(after, cutoff, count);
    WithoutMeans(Arrived(was, later[..arrived]), count);
    WithoutMeans(Arrived(was, later[..all]), count);
    assert after[..count] == before[..count];
    assert after[count..] == before[count..] + later[arrived..all];
  }

  lemma PrefixSorted(all: seq<Entry>, prefix: seq<Entry>)
    requires Sorted(all) && prefix <= all
    ensures Sorted(prefix)
  {
  }

  lemma SuffixSorted(all: seq<Entry>, k: nat)
    requires Sorted(all) && k <= |all|
    ensures Sorted(all[k..])
  {
  }

  /** Entries that join at the end leave the older ones before them in place. */
  lemma OlderGrows(entries: seq<Entry>, es: seq<Entry>, bound: Id)
    requires Sorted(entries + es)
    ensures OlderThan(entries, bound) <= OlderThan(entries + es, bound)
    ensures (forall e :: e in es ==> !Less(e.id, bound)) ==> OlderThan(entries, bound) == OlderThan(entries + es, bound)
  {
    PrefixSorted(entries + es, entries);
    OlderIsPrefix(entries, bound);
    OlderIsPrefix(entries + es, bound);
    var n := OlderThan(entries, bound);
    if n > 0 {
      assert Less((entries + es)[n - 1].id, bound);
    }
    if n < |entries| {
      assert !Less((entries + es)[n].id, bound);
    }
    if n == |entries| && es != [] && !Less(es[0].id, bound) {
      assert (entries + es)[n] == es[0];
    }
  }

  /** When whatever is dead-lettered meanwhile is not before the cutoff, a purge takes as many as if
      nothing had been: the quota of the start. */
  lemma PurgeIgnoresLateArrivals(entries: seq<Entry>, later: seq<Entry>, arrived: nat, cutoff: Id, most: int)
    requires Sorted(entries + later) && arrived <= |later|
    requires forall e :: e in later ==> !Less(e.id, cutoff)
    ensures Quota(entries + later[..arrived], cutoff, most) == Quota(entries, cutoff, most)
  {
    PrefixSorted(entries + later, entries + later[..arrived]);
    OlderGrows(entries, later[..arrived], cutoff);
  }

  function Max(a: int, b: int): int {
    if a < b then b else a
  }

  lemma AppendIds(a: seq<Entry>, e: Entry)
    ensures IdsOf(a + [e]) == IdsOf(a) + {e.id}
    ensures OriginalsIn(a + [e]) == OriginalsIn(a) + (if e.original.Some? then {e.original.value} else {})
  {
    var all := a + [e];
    assert all[|a|] == e;
    forall id | id in IdsOf(a) + {e.id} ensures id in IdsOf(all) {
      if id in IdsOf(a) {
        var i :| 0 <= i < |a| && a[i].id == id;
        assert all[i].id == id;
      }
    }
    forall id | id in OriginalsIn(a) ensures id in OriginalsIn(all) {
      var i :| 0 <= i < |a| && a[i].original == Some(id);
      assert all[i].original == Some(id);
    }
    assert e.original.Some? ==> all[|a|].original.value in OriginalsIn(all);
  }
}
