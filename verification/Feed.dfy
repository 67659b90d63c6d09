/** The in-app feed, read page by page from the newest item down. */
module Feed {
  import opened Common

  datatype Item = Item(id: int, user: int, deleted: bool, read: bool)

  datatype Page = Page(items: seq<int>, unread: nat, nextBefore: Option<int>)

  /** The table: items by id. Ids are drawn from a sequence that starts at 1. */
  predicate TableOk(table: map<int, Item>) {
    forall id :: id in table ==> id >= 1 && table[id].id == id
  }

  predicate Visible(table: map<int, Item>, user: int, id: int) {
    id in table && table[id].user == user && !table[id].deleted
  }

  function VisibleIds(table: map<int, Item>, user: int): set<int> {
    set id | id in table && Visible(table, user, id)
  }

  /** `if before_id` takes 0 for absent. */
  predicate InRange(id: int, before: Option<int>) {
    before.None? || before.value == 0 || id < before.value
  }

  predicate Descending(ids: seq<int>) {
    forall i, j :: 0 <= i < j < |ids| ==> ids[i] > ids[j]
  }

  function Elements(ids: seq<int>): set<int> {
    set x | x in ids
  }

  /** These are the largest `limit` of a set, in decreasing order. */
  predicate AreLargest(ids: seq<int>, candidates: set<int>, limit: nat) {
    && Descending(ids) && |ids| <= limit && Elements(ids) <= candidates
    && (|ids| < limit ==> Elements(ids) == candidates)
    && forall x, i :: x in candidates && x !in Elements(ids) && 0 <= i < |ids| ==> x < ids[i]
  }

  lemma AppendSmaller(ids: seq<int>, x: int)
    requires Descending(ids) && forall i :: 0 <= i < |ids| ==> x < ids[i]
    ensures Descending(ids + [x]) && Elements(ids + [x]) == Elements(ids) + {x} && x !in Elements(ids)
  {
  }

  method Largest(candidates: set<int>, limit: nat) returns (ids: seq<int>)
    ensures AreLargest(ids, candidates, limit)
  {
    ids := [];
    var rest := candidates;
    while |ids| < limit && exists x :: x in rest
      invariant rest <= candidates && Descending(ids) && |ids| <= limit
      invariant Elements(ids) == candidates - rest
      invariant forall x, i :: x in rest && 0 <= i < |ids| ==> x < ids[i]
      decreases rest
    {
      var max := Maximum(rest);
      AppendSmaller(ids, max);
      ids := ids + [max];
      rest := rest - {max};
    }
  }

  method Maximum(s: set<int>) returns (max: int)
    requires exists x :: x in s
    ensures max in s && forall x :: x in s ==> x <= max
  {
    max :| max in s;
    var todo := s;
    while exists x :: x in todo
      invariant todo <= s && max in s
      invariant forall x :: x in s && x !in todo ==> x <= max
      decreases todo
    {
      var x :| x in todo;
      todo := todo - {x};
      if x > max {
        max := x;
      }
    }
  }

  /** `feed_page`. */
  method FeedPage(table: map<int, Item>, user: int, limit: int, before: Option<int>) returns (page: Page)
    requires limit >= 1
    ensures AreLargest(page.items, InRangeIds(table, user, before), limit)
    ensures page.nextBefore.None? <==> Elements(page.items) == InRangeIds(table, user, before)
    ensures page.nextBefore.Some? ==> |page.items| == limit && page.nextBefore.value == page.items[limit - 1]
    ensures forall id :: id in page.items <==>
              && id in table && table[id].user == user && !table[id].deleted
              && (before == None || before == Some(0) || id < before.value)
              && (page.nextBefore.None? || id >= page.nextBefore.value)
    ensures page.unread == |set id | id in table && table[id].user == user && !table[id].deleted && !table[id].read|
  {
    var candidates := InRangeIds(table, user, before);
    var rows := Largest(candidates, limit + 1);
    var items := if |rows| > limit then rows[..limit] else rows;
    PrefixIsLargest(rows, candidates, limit);
    LargestIff(items, candidates, limit);
    var unread := set id | id in VisibleIds(table, user) && !table[id].read;
    assert unread == set id | id in table && table[id].user == user && !table[id].deleted && !table[id].read;
    page := Page(items, |unread|, if |rows| > limit then Some(items[|items| - 1]) else None);
  }

  /** The largest are those not below the last of them, or all. */
  lemma LargestIff(ids: seq<int>, candidates: set<int>, limit: nat)
    requires AreLargest(ids, candidates, limit)
    ensures forall x :: x in ids <==> x in candidates && (Elements(ids) == candidates || (ids != [] && x >= ids[|ids| - 1]))
  {
    forall x
      ensures x in ids <==> x in candidates && (Elements(ids) == candidates || (ids != [] && x >= ids[|ids| - 1]))
    {
      assert x in ids <==> x in Elements(ids);
      if x in ids {
        var i :| 0 <= i < |ids| && ids[i] == x;
      }
    }
  }

  function InRangeIds(table: map<int, Item>, user: int, before: Option<int>): set<int> {
    set id | id in VisibleIds(table, user) && InRange(id, before)
  }

  lemma PrefixIsLargest(rows: seq<int>, candidates: set<int>, limit: nat)
    requires AreLargest(rows, candidates, limit + 1)
    ensures |rows| <= limit ==> AreLargest(rows, candidates, limit) && Elements(rows) == candidates
    ensures |rows| > limit ==> AreLargest(rows[..limit], candidates, limit) && Elements(rows[..limit]) != candidates
  {
    if |rows| > limit {
      var last := rows[limit];
      assert Elements(rows) == Elements(rows[..limit]) + {last} && last in Elements(rows);
      assert forall i :: 0 <= i < limit ==> rows[..limit][i] == rows[i] && rows[i] > last;
    }
  }

  // ---------------------------------------------------------------- reading it all

  /** The ids seen so far are above all that are left. */
  predicate AllAbove(ids: seq<int>, left: set<int>) {
    forall x, i :: x in left && 0 <= i < |ids| ==> x < ids[i]
  }

  /** The next page starts where this one ended. */
  lemma PageAdvances(table: map<int, Item>, user: int, limit: int, before: Option<int>, items: seq<int>)
    requires TableOk(table) && limit >= 1 && |items| == limit
    requires AreLargest(items, InRangeIds(table, user, before), limit)
    ensures items[limit - 1] >= 1 && items[limit - 1] in Elements(items)
    ensures InRangeIds(table, user, Some(items[limit - 1])) == InRangeIds(table, user, before) - Elements(items)
  {
    var last := items[limit - 1];
    assert last in Elements(items);
    assert last in InRangeIds(table, user, before);
    forall x | x in Elements(items)
      ensures x >= last
    {
      var i :| 0 <= i < limit && items[i] == x;
    }
  }

  lemma JoinPages(ids: seq<int>, items: seq<int>, left: set<int>, limit: nat)
    requires Descending(ids) && AllAbove(ids, left) && AreLargest(items, left, limit)
    ensures Descending(ids + items) && Elements(ids + items) == Elements(ids) + Elements(items)
    ensures AllAbove(ids + items, left - Elements(items))
  {
    forall i, j | 0 <= i < j < |ids + items|
      ensures (ids + items)[i] > (ids + items)[j]
    {
      if i < |ids| <= j {
        assert items[j - |ids|] in Elements(items);
      }
    }
  }

  /** Following `next_before_id` to the end visits every visible item once, from the newest to the oldest. */
  method ReadAll(table: map<int, Item>, user: int, limit: int) returns (ids: seq<int>, pages: nat)
    requires TableOk(table) && limit >= 1
    ensures Descending(ids) && Elements(ids) == VisibleIds(table, user)
    ensures forall id :: id in ids <==> id in table && table[id].user == user && !table[id].deleted
    ensures (pages - 1) * limit <= |ids| <= pages * limit
  {
    NothingRead();
    hide Descending, AllAbove, AreLargest, Visible, InRange, Elements, VisibleIds, TableOk;
    ids, pages := [], 0;
    ghost var left := VisibleIds(table, user);
    var before := None;
    var more := true;
    Unbounded(table, user);
    hide InRangeIds;
    while more
      invariant Descending(ids) && Elements(ids) == VisibleIds(table, user) - left && left <= VisibleIds(table, user)
      invariant AllAbove(ids, left)
      invariant more ==> left == InRangeIds(table, user, before) && |ids| == pages * limit
      invariant !more ==> left == {} && (pages - 1) * limit <= |ids| <= pages * limit
      decreases more, left
    {
      var page := FeedPage(table, user, limit, before);
      JoinPages(ids, page.items, left, limit);
      PageIsPart(page.items, left, limit);
      Taken(VisibleIds(table, user), left, Elements(page.items));
      assert (pages + 1) * limit == pages * limit + limit;
      ids := ids + page.items;
      pages := pages + 1;
      more := page.nextBefore.Some?;
      if more {
        PageAdvances(table, user, limit, before, page.items);
        before := page.nextBefore;
      }
      left := left - Elements(page.items);
    }
    VisibleIff(table, user, ids);
  }

  lemma Taken(all: set<int>, left: set<int>, page: set<int>)
    requires page <= left <= all
    ensures (all - left) + page == all - (left - page) && left - page <= all
    ensures page == left ==> left - page == {}
  {
  }

  lemma NothingRead()
    ensures Descending([]) && Elements([]) == {} && forall left :: AllAbove([], left)
  {
  }

  lemma Unbounded(table: map<int, Item>, user: int)
    ensures InRangeIds(table, user, None) == VisibleIds(table, user)
  {
  }

  lemma VisibleIff(table: map<int, Item>, user: int, ids: seq<int>)
    requires Elements(ids) == VisibleIds(table, user)
    ensures forall id :: id in ids <==> id in table && table[id].user == user && !table[id].deleted
  {
    assert forall id :: id in ids <==> id in Elements(ids);
  }

  lemma PageIsPart(items: seq<int>, left: set<int>, limit: nat)
    requires AreLargest(items, left, limit)
    ensures Elements(items) <= left && |items| <= limit
  {
  }
}
