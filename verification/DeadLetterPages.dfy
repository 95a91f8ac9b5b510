/** Reading the dead letter stream page by page, newest first, while others append and purge. */
module DeadLetterPages {
  import opened Options
  import opened StreamIds
  import opened Delivery
  import opened DeadLetters

  datatype Page = Page(items: seq<Entry>, next: Option<Id>)

  /** One row of a page: the entry with its replay hash. */
  datatype Item = Item(entry: Entry, replay: ReplayHash)

  function Reversed(entries: seq<Entry>): (r: seq<Entry>)
    ensures |r| == |entries|
  {
    seq(|entries|, i requires 0 <= i < |entries| => entries[|entries| - 1 - i])
  }

  /** How many entries a cursor leaves to read. */
  function Unread(entries: seq<Entry>, cursor: Option<Id>): (n: nat)
    ensures n <= |entries|
  {
    match cursor
    case None => |entries|
    case Some(id) => OlderThan(entries, id)
  }

  /** The newest `limit` unread entries, and the last of them as the cursor when there are more. */
  function PageOf(entries: seq<Entry>, limit: nat, cursor: Option<Id>): Page
    requires limit >= 1
  {
    var n := Unread(entries, cursor);
    if n <= limit then Page(Reversed(entries[..n]), None)
    else Page(Reversed(entries[n - limit..n]), Some(entries[n - limit].id))
  }

  /** The range read behind a page: up to `count` entries before the cursor, newest first. */
  method RangeBackwards(entries: seq<Entry>, cursor: Option<Id>, count: nat) returns (rows: seq<Entry>)
    ensures var n := Unread(entries, cursor);
            && |rows| == Min(count, n)
            && forall i :: 0 <= i < |rows| ==> rows[i] == entries[n - 1 - i]
  {
    var n := Unread(entries, cursor);
    rows := [];
    while |rows| < count && |rows| < n
      invariant |rows| <= count && |rows| <= n
      invariant forall i :: 0 <= i < |rows| ==> rows[i] == entries[n - 1 - i]
    {
      rows := rows + [entries[n - 1 - |rows|]];
    }
  }

  lemma RowsArePage(entries: seq<Entry>, limit: nat, cursor: Option<Id>, rows: seq<Entry>, visible: seq<Entry>)
    requires limit >= 1 && |rows| == Min(limit + 1, Unread(entries, cursor))
    requires forall i :: 0 <= i < |rows| ==> rows[i] == entries[Unread(entries, cursor) - 1 - i]
    requires visible == if |rows| > limit then rows[..limit] else rows
    ensures visible == PageOf(entries, limit, cursor).items
    ensures PageOf(entries, limit, cursor).next == if |rows| > limit then Some(visible[|visible| - 1].id) else None
  {
    var n := Unread(entries, cursor);
    var from := if n <= limit then 0 else n - limit;
    assert |visible| == n - from;
    NewestFirst(entries, from, n, visible);
  }

  lemma NewestFirst(entries: seq<Entry>, from: nat, n: nat, items: seq<Entry>)
    requires from <= n <= |entries| && |items| == n - from
    requires forall i :: 0 <= i < |items| ==> items[i] == entries[n - 1 - i]
    ensures items == Reversed(entries[from..n])
  {
    var whole := Reversed(entries[from..n]);
    forall i | 0 <= i < |items| ensures items[i] == whole[i] {
      assert whole[i] == entries[from..n][n - from - 1 - i];
    }
  }

  /** The rows with the replay hash of each. */
  method WithReplays(rows: seq<Entry>, replays: map<Id, ReplayHash>) returns (items: seq<Item>)
    ensures |items| == |rows|
    ensures forall i :: 0 <= i < |items| ==> items[i] == Item(rows[i], HashIn(replays, rows[i].id))
  {
    items := [];
    while |items| < |rows|
      invariant |items| <= |rows|
      invariant forall i :: 0 <= i < |items| ==> items[i] == Item(rows[i], HashIn(replays, rows[i].id))
    {
      var row := rows[|items|];
      items := items + [Item(row, HashIn(replays, row.id))];
    }
  }

  /** One page: read one row more than asked for, show the rest with their replay hashes, and hand
      out a cursor only when the extra row was there. */
  method ListDlqEntries(entries: seq<Entry>, replays: map<Id, ReplayHash>, limit: nat, cursor: Option<Id>)
    returns (items: seq<Item>, next: Option<Id>)
    requires limit >= 1
    ensures var page := PageOf(entries, limit, cursor);
            && next == page.next && |items| == |page.items|
            && forall i :: 0 <= i < |items| ==> items[i] == Item(page.items[i], HashIn(replays, page.items[i].id))
  {
    var rows := RangeBackwards(entries, cursor, limit + 1);
    var visible := if |rows| > limit then rows[..limit] else rows;
    RowsArePage(entries, limit, cursor, rows, visible);
    items := WithReplays(visible, replays);
    next := if |rows| > limit then Some(visible[|visible| - 1].id) else None;
  }

  // ------------------------------------------------------------------------ one page

  predicate Before(id: Id, cursor: Option<Id>) {
    cursor.Some? ==> Less(id, cursor.value)
  }

  predicate Descending(entries: seq<Entry>) {
    forall i, j :: 0 <= i < j < |entries| ==> Less(entries[j].id, entries[i].id)
  }

  lemma UnreadIsPrefix(entries: seq<Entry>, cursor: Option<Id>)
    requires Sorted(entries)
    ensures forall i :: 0 <= i < |entries| ==> (Before(entries[i].id, cursor) <==> i < Unread(entries, cursor))
  {
    if cursor.Some? {
      OlderIsPrefix(entries, cursor.value);
    }
  }

  /** A page is newest first, comes from the stream, lies before its cursor and at or after the next
      one, and misses nothing in between. */
  lemma PageFacts(entries: seq<Entry>, limit: nat, cursor: Option<Id>, page: Page)
    requires Sorted(entries) && limit >= 1 && page == PageOf(entries, limit, cursor)
    ensures Descending(page.items)
    ensures forall e :: e in page.items <==>
              e in entries && Before(e.id, cursor) && (page.next.Some? ==> !Less(e.id, page.next.value))
    ensures page.next.Some? ==> Before(page.next.value, cursor) && Unread(entries, page.next) < Unread(entries, cursor)
  {
    UnreadIsPrefix(entries, cursor);
    var n := Unread(entries, cursor);
    var from := if n <= limit then 0 else n - limit;
    PageItems(entries, from, n, page.items);
    if page.next.Some? {
      UnreadIsPrefix(entries, page.next);
      assert Unread(entries, page.next) <= from;
    }
    forall e | e in entries && Before(e.id, cursor) && (page.next.Some? ==> !Less(e.id, page.next.value))
      ensures e in page.items
    {
      var i :| 0 <= i < |entries| && entries[i] == e;
      assert page.items[n - 1 - i] == e;
    }
  }

  lemma PageItems(entries: seq<Entry>, from: nat, n: nat, items: seq<Entry>)
    requires Sorted(entries) && from <= n <= |entries| && items == Reversed(entries[from..n])
    ensures |items| == n - from && forall i :: 0 <= i < |items| ==> items[i] == entries[n - 1 - i]
    ensures forall e :: e in items ==> exists i :: from <= i < n && entries[i] == e
  {
    forall e | e in items ensures exists i :: from <= i < n && entries[i] == e {
      var k :| 0 <= k < |items| && items[k] == e;
      assert entries[n - 1 - k] == e;
    }
  }

  // ---------------------------------------------------------------------- whole walks

  datatype Walk = Walk(seen: seq<Entry>, finished: bool)

  /** Follow the cursors; page k is read from the stream as it is at that moment, `worlds[k]`. */
  function Browse(worlds: seq<seq<Entry>>, limit: nat, cursor: Option<Id>): Walk
    requires limit >= 1
    decreases |worlds|
  {
    if worlds == [] then Walk([], false)
    else
      var page := PageOf(worlds[0], limit, cursor);
      if page.next.None? then Walk(page.items, true)
      else
        var rest := Browse(worlds[1..], limit, page.next);
        Walk(page.items + rest.seen, rest.finished)
  }

  predicate AllSorted(worlds: seq<seq<Entry>>) {
    forall k :: 0 <= k < |worlds| ==> Sorted(worlds[k])
  }

  /** No duplicates, whatever is appended or purged between pages: the ids strictly descend. */
  lemma {:induction false} BrowseDescends(worlds: seq<seq<Entry>>, limit: nat, cursor: Option<Id>)
    requires AllSorted(worlds) && limit >= 1
    ensures Descending(Browse(worlds, limit, cursor).seen)
    ensures forall e :: e in Browse(worlds, limit, cursor).seen ==> Before(e.id, cursor)
    decreases |worlds|
  {
    if worlds != [] {
      var page := PageOf(worlds[0], limit, cursor);
      PageFacts(worlds[0], limit, cursor, page);
      if page.next.Some? {
        BrowseDescends(worlds[1..], limit, page.next);
        Concatenated(page.items, Browse(worlds[1..], limit, page.next).seen, page.next.value);
      }
    }
  }

  lemma Concatenated(first: seq<Entry>, rest: seq<Entry>, cursor: Id)
    requires Descending(first) && Descending(rest)
    requires forall e :: e in first ==> !Less(e.id, cursor)
    requires forall e :: e in rest ==> Less(e.id, cursor)
    ensures Descending(first + rest)
  {
    var all := first + rest;
    forall i, j | 0 <= i < j < |all| ensures Less(all[j].id, all[i].id) {
      if i < |first| <= j {
        assert all[i] == first[i] && all[j] == rest[j - |first|];
        assert all[i] in first && all[j] in rest;
      } else if i >= |first| {
        assert all[i] == rest[i - |first|] && all[j] == rest[j - |first|];
      }
    }
  }

  /** Survivors are never skipped: an entry that is there at every page read is seen. */
  lemma {:induction false} BrowseKeepsSurvivors(worlds: seq<seq<Entry>>, limit: nat, cursor: Option<Id>, e: Entry)
    requires AllSorted(worlds) && limit >= 1 && Browse(worlds, limit, cursor).finished
    requires Before(e.id, cursor) && (forall k :: 0 <= k < |worlds| ==> e in worlds[k])
    ensures e in Browse(worlds, limit, cursor).seen
    decreases |worlds|
  {
    var page := PageOf(worlds[0], limit, cursor);
    PageFacts(worlds[0], limit, cursor, page);
    assert e in worlds[0];
    if page.next.Some? && Less(e.id, page.next.value) {
      BrowseKeepsSurvivors(worlds[1..], limit, page.next, e);
    }
  }

  /** Each page read finds the stream as it was, plus newer entries at its end. */
  predicate OnlyAppends(worlds: seq<seq<Entry>>) {
    forall k :: 0 < k < |worlds| ==> worlds[k - 1] <= worlds[k]
  }

  lemma UnreadStays(entries: seq<Entry>, later: seq<Entry>, cursor: Id)
    requires Sorted(later) && entries <= later
    requires exists e :: e in entries && e.id == cursor
    ensures OlderThan(entries, cursor) == OlderThan(later, cursor) < |entries|
  {
    var e :| e in entries && e.id == cursor;
    var at :| 0 <= at < |entries| && entries[at] == e;
    assert forall i :: 0 <= i < |entries| ==> later[i] == entries[i];
    assert Less(later[at].id, cursor) == false;
    OlderIs(later, cursor, at, 0);
    OlderIs(entries, cursor, at, 0);
  }

  /** Following the cursors to the end while entries are only appended yields exactly what the first
      page's moment held, newest first; so with nothing appended, one full reverse scan. */
  lemma {:induction false} BrowseIsReverseScan(worlds: seq<seq<Entry>>, limit: nat, cursor: Option<Id>)
    requires worlds != [] && AllSorted(worlds) && OnlyAppends(worlds) && limit >= 1
    requires Browse(worlds, limit, cursor).finished
    ensures Browse(worlds, limit, cursor).seen == Reversed(worlds[0][..Unread(worlds[0], cursor)])
    decreases |worlds|
  {
    var now := worlds[0];
    var n := Unread(now, cursor);
    var page := PageOf(now, limit, cursor);
    if page.next.Some? {
      assert worlds[1..] != [];
      var rest := RestOfWalk(worlds);
      BrowseIsReverseScan(rest, limit, page.next);
      CursorStays(now, n - limit, rest[0]);
      ReversedParts(now, n - limit, n, rest[0]);
    }
  }

  lemma CursorIsIndex(entries: seq<Entry>, k: nat)
    requires Sorted(entries) && k < |entries|
    ensures OlderThan(entries, entries[k].id) == k
  {
    OlderIs(entries, entries[k].id, k, 0);
  }

  lemma CursorStays(entries: seq<Entry>, k: nat, later: seq<Entry>)
    requires Sorted(entries) && Sorted(later) && entries <= later && k < |entries|
    ensures OlderThan(later, entries[k].id) == k
  {
    assert entries[k] in entries;
    UnreadStays(entries, later, entries[k].id);
    CursorIsIndex(entries, k);
  }

  lemma ReversedParts(entries: seq<Entry>, k: nat, n: nat, later: seq<Entry>)
    requires k <= n <= |entries| && entries <= later
    ensures Reversed(entries[..n]) == Reversed(entries[k..n]) + Reversed(later[..k])
  {
  }

  /** While entries are only appended the cursors come to an end: no more pages are read than there
      were unread entries at the first one, and one. */
  lemma {:induction false} BrowseFinishes(worlds: seq<seq<Entry>>, limit: nat, cursor: Option<Id>)
    requires worlds != [] && AllSorted(worlds) && OnlyAppends(worlds) && limit >= 1
    requires |worlds| > Unread(worlds[0], cursor)
    ensures Browse(worlds, limit, cursor).finished
    decreases |worlds|
  {
    var now := worlds[0];
    var page := PageOf(now, limit, cursor);
    if page.next.Some? {
      PageFacts(now, limit, cursor, page);
      var rest := RestOfWalk(worlds);
      assert now[Unread(now, cursor) - limit] in now;
      UnreadStays(now, rest[0], page.next.value);
      BrowseFinishes(rest, limit, page.next);
    }
  }

  lemma RestOfWalk(worlds: seq<seq<Entry>>) returns (rest: seq<seq<Entry>>)
    requires |worlds| > 1 && AllSorted(worlds) && OnlyAppends(worlds)
    ensures rest == worlds[1..] && AllSorted(rest) && OnlyAppends(rest) && worlds[0] <= rest[0]
  {
    rest := worlds[1..];
    assert worlds[0] <= worlds[1];
    forall k | 0 < k < |rest| ensures rest[k - 1] <= rest[k] {
      assert worlds[k] <= worlds[k + 1];
    }
  }

  /** A client that follows the cursors of an unchanged stream reads it once, in reverse. */
  method ReadAll(entries: seq<Entry>, replays: map<Id, ReplayHash>, limit: nat) returns (all: seq<Item>)
    requires Sorted(entries) && limit >= 1
    ensures |all| == |entries|
    ensures forall i :: 0 <= i < |all| ==>
              all[i] == Item(entries[|entries| - 1 - i], HashIn(replays, entries[|entries| - 1 - i].id))
  {
    var cursor: Option<Id>, more := None, true;
    all := [];
    while more
      invariant |all| <= |entries|
      invariant forall i :: 0 <= i < |all| ==>
                  all[i] == Item(entries[|entries| - 1 - i], HashIn(replays, entries[|entries| - 1 - i].id))
      invariant if more then Unread(entries, cursor) == |entries| - |all| else |all| == |entries|
      decreases more, |entries| - |all|
    {
      var items, next := ListDlqEntries(entries, replays, limit, cursor);
      if next.Some? {
        CursorIsIndex(entries, Unread(entries, cursor) - limit);
      }
      all := all + items;
      cursor, more := next, next.Some?;
    }
  }
}
