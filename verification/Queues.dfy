// The singly linked queue of src/shared/queue.c, with a tail pointer and a count, refining a
// sequence.

module Queues {
  import opened Wire

  // ---- Sequences ---------------------------------------------------------------------------

  // Index of the first element that satisfies f, or |s|.
  function FirstMatch<T>(s: seq<T>, f: T -> bool): (j: nat)
    ensures j <= |s|
    ensures forall k :: 0 <= k < j ==> !f(s[k])
    ensures j < |s| ==> f(s[j])
  {
    if s == [] || f(s[0]) then 0 else 1 + FirstMatch(s[1..], f)
  }

  // The elements that satisfy f, in order.
  function Filter<T>(s: seq<T>, f: T -> bool): seq<T> {
    if s == [] then [] else (if f(s[0]) then [s[0]] else []) + Filter(s[1..], f)
  }

  function Not<T>(f: T -> bool): T -> bool { x => !f(x) }

  function DropAt<T>(s: seq<T>, j: nat): (r: seq<T>)
    requires j <= |s|
    ensures j < |s| ==> |r| == |s| - 1 && forall k :: 0 <= k < |r| ==> r[k] == s[if k < j then k else k + 1]
  {
    if j == |s| then s else s[..j] + s[j + 1..]
  }

  function InsertAt<T>(s: seq<T>, j: nat, x: T): (r: seq<T>)
    requires j <= |s|
    ensures |r| == |s| + 1 && r[j] == x
    ensures forall k :: 0 <= k < |r| && k != j ==> r[k] == s[if k < j then k else k - 1]
  {
    s[..j] + [x] + s[j..]
  }

  lemma {:induction false} FilterNone<T>(s: seq<T>, f: T -> bool)
    requires forall k :: 0 <= k < |s| ==> !f(s[k])
    ensures Filter(s, f) == []
  {
    if s != [] {
      FilterNone(s[1..], f);
    }
  }

  // Taking the first match out is one step of a partition that keeps the order of both halves.
  lemma {:induction false} FilterDrop<T>(s: seq<T>, f: T -> bool)
    requires FirstMatch(s, f) < |s|
    ensures var j := FirstMatch(s, f);
            && Filter(s, f) == [s[j]] + Filter(DropAt(s, j), f)
            && Filter(s, Not(f)) == Filter(DropAt(s, j), Not(f))
  {
    var j, g := FirstMatch(s, f), Not(f);
    if j == 0 {
      assert DropAt(s, 0) == s[1..];
    } else {
      FilterDrop(s[1..], f);
      var d := DropAt(s, j);
      assert d[0] == s[0] && d[1..] == DropAt(s[1..], j - 1);
      assert Filter(d, f) == Filter(d[1..], f);
      assert Filter(s, f) == Filter(s[1..], f);
      assert Filter(s, g) == [s[0]] + Filter(s[1..], g);
      assert Filter(d, g) == [s[0]] + Filter(d[1..], g);
    }
  }

  // Nothing is lost or invented: what is kept and what is removed make up the whole.
  lemma {:induction false} FilterPartition<T>(s: seq<T>, f: T -> bool)
    ensures multiset(Filter(s, f)) + multiset(Filter(s, Not(f))) == multiset(s)
    ensures forall x :: x in Filter(s, f) ==> f(x)
    ensures forall x :: x in Filter(s, Not(f)) ==> !f(x)
  {
    if s != [] {
      assert s == [s[0]] + s[1..];
      FilterPartition(s[1..], f);
    }
  }

  // Survivors keep their order: the kept elements sit at increasing positions of the original.
  lemma {:induction false} FilterOrder<T>(s: seq<T>, f: T -> bool) returns (at: seq<nat>)
    ensures Picks(at, s, Filter(s, f))
  {
    at := [];
    if s != [] {
      var rest := FilterOrder(s[1..], f);
      var r := Filter(s[1..], f);
      assert Filter(s, f) == if f(s[0]) then [s[0]] + r else r;
      hide Filter;
      at := Moved(s, rest, r);
      if f(s[0]) { at := [0] + at; }
    }
  }

  // r is what s holds at these positions, which increase.
  ghost predicate Picks<T>(at: seq<nat>, s: seq<T>, r: seq<T>) {
    && |at| == |r|
    && (forall k :: 0 <= k < |at| ==> at[k] < |s| && s[at[k]] == r[k])
    && (forall j, k :: 0 <= j < k < |at| ==> at[j] < at[k])
  }

  // Positions in the tail, as positions in the whole; the first one goes before them.
  lemma Moved<T>(s: seq<T>, rest: seq<nat>, r: seq<T>) returns (at: seq<nat>)
    requires s != [] && Picks(rest, s[1..], r)
    ensures Picks(at, s, r) && Picks([0] + at, s, [s[0]] + r)
  {
    at := seq(|rest|, k requires 0 <= k < |rest| => rest[k] + 1);
    forall k | 0 <= k < |at| ensures at[k] < |s| && s[at[k]] == r[k] {
      assert s[1..][rest[k]] == s[rest[k] + 1];
    }
  }

  ghost predicate Distinct<T>(s: seq<T>) { forall j, k :: 0 <= j < k < |s| ==> s[j] != s[k] }

  lemma DistinctAt<T>(s: seq<T>, j: nat)
    requires Distinct(s) && j < |s|
    ensures forall k :: 0 <= k < |s| && k != j ==> s[k] != s[j]
    ensures Distinct(DropAt(s, j))
  {
  }

  lemma DistinctInsert<T>(s: seq<T>, j: nat, x: T)
    requires Distinct(s) && j <= |s| && x !in s
    ensures Distinct(InsertAt(s, j, x))
  {
  }

  // ---- The linked queue ----------------------------------------------------------------------

  // struct queue_entry
  class Entry<T> {
    var data: T
    var next: Entry?<T>

    // queue_entry_new
    constructor (data: T)
      ensures this.data == data && next == null
    {
      this.data := data;
      next := null;
    }
  }

  // The k-th entry, or null outside the list.
  function At<T>(spine: seq<Entry<T>>, k: int): Entry?<T> {
    if 0 <= k < |spine| then spine[k] else null
  }

  // struct queue.  `spine` lists the entries in link order, `contents` the data they hold.
  class Queue<T(==)> {
    var head: Entry?<T>
    var tail: Entry?<T>
    var entries: nat
    ghost var spine: seq<Entry<T>>
    ghost var contents: seq<T>

    // The list is acyclic, ends at `tail`, and `entries` counts it.
    ghost predicate Valid()
      reads this, spine
    {
      && entries == |spine| == |contents|
      && Distinct(spine)
      && head == At(spine, 0) && tail == At(spine, |spine| - 1)
      && (forall k {:trigger spine[k].next} :: 0 <= k < |spine| ==> spine[k].next == At(spine, k + 1))
      && (forall k {:trigger spine[k].data} {:trigger contents[k]} :: 0 <= k < |spine| ==> spine[k].data == contents[k])
    }

    // queue_new
    constructor ()
      ensures Valid() && contents == [] && spine == []
    {
      head, tail, entries := null, null, 0;
      spine, contents := [], [];
    }

    // queue_push_tail
    method PushTail(x: T)
      requires Valid()
      modifies this, spine
      ensures Valid() && contents == old(contents) + [x]
      ensures |spine| == old(|spine|) + 1 && spine[..old(|spine|)] == old(spine) && fresh(spine[old(|spine|)])
    {
      var entry := new Entry(x);
      if tail != null {
        tail.next := entry;
      }
      tail := entry;
      if head == null {
        head := entry;
      }
      entries := entries + 1;
      spine := spine + [entry];
      contents := contents + [x];
    }

    // queue_push_head
    method PushHead(x: T)
      requires Valid()
      modifies this
      ensures Valid() && contents == [x] + old(contents)
      ensures |spine| == old(|spine|) + 1 && spine[1..] == old(spine) && fresh(spine[0])
    {
      var entry := new Entry(x);
      entry.next := head;
      head := entry;
      if tail == null {
        tail := entry;
      }
      entries := entries + 1;
      spine := [entry] + spine;
      contents := [x] + contents;
    }

    // queue_push_after: behind the first element equal to `after`
    method PushAfter(after: T, x: T) returns (ok: bool)
      requires Valid()
      modifies this, spine
      ensures Valid()
      ensures var j := FirstMatch(old(contents), y => y == after);
              ok == (j < |old(contents)|) && contents == if ok then InsertAt(old(contents), j + 1, x) else old(contents)
      ensures forall e <- spine :: e in old(spine) || fresh(e)
    {
      var qentry: Entry?<T> := null;
      var tmp := head;
      ghost var j := 0;
      while tmp != null
        invariant 0 <= j <= |spine| && tmp == At(spine, j) && qentry == null
        invariant forall k :: 0 <= k < j ==> contents[k] != after
        decreases |spine| - j
      {
        if tmp.data == after {
          qentry := tmp;
          break;
        }
        tmp := tmp.next;
        j := j + 1;
      }
      if qentry == null {
        return false;
      }
      hide FirstMatch;
      var entry := new Entry(x);
      LinkAfter(qentry, entry, j);
      return true;
    }

    // A new entry behind the one at position j.
    method LinkAfter(qentry: Entry<T>, entry: Entry<T>, ghost j: nat)
      requires Valid() && j < |spine| && qentry == spine[j] && entry !in spine
      modifies this, spine, entry
      ensures Valid() && contents == InsertAt(old(contents), j + 1, old(entry.data))
      ensures spine == InsertAt(old(spine), j + 1, entry)
    {
      hide Distinct, InsertAt;
      DistinctAt(spine, j);
      DistinctInsert(spine, j + 1, entry);
      entry.next := qentry.next;
      if qentry.next == null {
        tail := entry;
      }
      qentry.next := entry;
      entries := entries + 1;
      ghost var nodes, data := spine, contents;
      spine, contents := InsertAt(spine, j + 1, entry), InsertAt(contents, j + 1, entry.data);
      assert |spine| == |nodes| + 1 == |contents| && spine[0] == nodes[0];
      forall k | 0 <= k < |spine| ensures spine[k].data == contents[k] {
        if k != j + 1 { assert spine[k] == nodes[if k <= j then k else k - 1]; }
      }
      forall k | 0 <= k < |spine| ensures spine[k].next == At(spine, k + 1) {
        if k != j + 1 { assert spine[k] == nodes[if k <= j then k else k - 1]; }
      }
    }

    // queue_pop_head
    method PopHead() returns (x: Option<T>)
      requires Valid()
      modifies this
      ensures Valid()
      ensures if old(contents) == [] then x == None && contents == [] && spine == old(spine)
              else x == Some(old(contents)[0]) && contents == old(contents)[1..] && spine == old(spine)[1..]
    {
      if head == null {
        return None;
      }
      var entry := head;
      if entry.next == null {
        head, tail := null, null;
      } else {
        head := entry.next;
      }
      entries := entries - 1;
      spine, contents := spine[1..], contents[1..];
      return Some(entry.data);
    }

    // queue_peek_head
    method PeekHead() returns (x: Option<T>)
      requires Valid()
      ensures x == if contents == [] then None else Some(contents[0])
    {
      x := if head == null then None else Some(head.data);
    }

    // queue_peek_tail
    method PeekTail() returns (x: Option<T>)
      requires Valid()
      ensures x == if contents == [] then None else Some(contents[|contents| - 1])
    {
      x := if tail == null then None else Some(tail.data);
    }

    // queue_find
    method Find(f: T -> bool) returns (x: Option<T>)
      requires Valid()
      ensures var j := FirstMatch(contents, f); x == if j < |contents| then Some(contents[j]) else None
    {
      var entry := head;
      ghost var j := 0;
      while entry != null
        invariant 0 <= j <= |spine| && entry == At(spine, j)
        invariant forall k :: 0 <= k < j ==> !f(contents[k])
        decreases |spine| - j
      {
        if f(entry.data) {
          return Some(entry.data);
        }
        entry := entry.next;
        j := j + 1;
      }
      return None;
    }

    // Unlinks the entry at position j; prev is the one before it.
    method Unlink(prev: Entry?<T>, entry: Entry<T>, ghost j: nat)
      requires Valid() && j < |spine| && entry == spine[j] && prev == At(spine, j - 1)
      modifies this, spine
      ensures Valid() && contents == DropAt(old(contents), j) && spine == DropAt(old(spine), j)
    {
      hide Distinct;
      DistinctAt(spine, j);
      if j > 0 { DistinctAt(spine, j - 1); }
      if prev != null {
        prev.next := entry.next;
      } else {
        head := entry.next;
      }
      if entry.next == null {
        tail := prev;
      }
      entries := entries - 1;
      ghost var nodes, data := spine, contents;
      spine, contents := DropAt(spine, j), DropAt(contents, j);
      forall k | 0 <= k < |spine| ensures spine[k].next == At(spine, k + 1) && spine[k].data == contents[k] {
        var m := if k < j then k else k + 1;
        assert spine[k] == nodes[m] && contents[k] == data[m];
      }
    }

    // queue_remove
    method Remove(x: T) returns (ok: bool)
      requires Valid()
      modifies this, spine
      ensures Valid()
      ensures var j := FirstMatch(old(contents), y => y == x);
              ok == (j < |old(contents)|) && contents == DropAt(old(contents), j) && spine == DropAt(old(spine), j)
    {
      var entry, prev: Entry?<T> := head, null;
      ghost var j := 0;
      while entry != null
        invariant 0 <= j <= |spine| && entry == At(spine, j) && prev == At(spine, j - 1)
        invariant forall k :: 0 <= k < j ==> contents[k] != x
        decreases |spine| - j
      {
        if entry.data == x {
          Unlink(prev, entry, j);
          return true;
        }
        prev, entry := entry, entry.next;
        j := j + 1;
      }
      return false;
    }

    // queue_remove_if
    method RemoveIf(f: T -> bool) returns (x: Option<T>)
      requires Valid()
      modifies this, spine
      ensures Valid()
      ensures var j := FirstMatch(old(contents), f);
              && contents == DropAt(old(contents), j) && spine == DropAt(old(spine), j)
              && entries == old(entries) - (if x.Some? then 1 else 0)
              && (x.None? ==> contents == old(contents) && forall k :: 0 <= k < |contents| ==> !f(contents[k]))
              && (forall k :: 0 <= k < |spine| ==> spine[k] in old(spine))
              && x == if j < |old(contents)| then Some(old(contents)[j]) else None
    {
      hide FirstMatch, Distinct;
      var entry, prev: Entry?<T> := head, null;
      ghost var j := 0;
      while entry != null
        invariant 0 <= j <= |spine| && entry == At(spine, j) && prev == At(spine, j - 1)
        invariant forall k :: 0 <= k < j ==> !f(contents[k])
        decreases |spine| - j
      {
        if f(entry.data) {
          x := Some(entry.data);
          Unlink(prev, entry, j);
          return;
        }
        prev, entry := entry, entry.next;
        j := j + 1;
      }
      return None;
    }

    // queue_remove_all with a predicate; `gone` is what the destroy callback is given, in order
    method RemoveAll(f: T -> bool) returns (count: nat, gone: seq<T>)
      requires Valid()
      modifies this, spine
      ensures Valid() && contents == Filter(old(contents), Not(f))
      ensures gone == Filter(old(contents), f) && count == |gone|
      ensures forall k :: 0 <= k < |spine| ==> spine[k] in old(spine)
    {
      count, gone := 0, [];
      var entry := head;
      ghost var g := Not(f);
      if entry == null {
        return;
      }
      hide Filter, FirstMatch, DropAt, Distinct, Not;
      while entry != null
        invariant Valid() && count == |gone| && entry != null
        invariant gone + Filter(contents, f) == Filter(old(contents), f)
        invariant Filter(contents, g) == Filter(old(contents), g)
        invariant forall k :: 0 <= k < |spine| ==> spine[k] in old(spine)
        decreases entries
      {
        var before := entries;
        ghost var was := contents;
        var x := RemoveIf(f);
        if before == entries {
          FilterNone(was, f);
          AllKept(was, f);
          return;
        }
        FilterTake(was, f, gone);
        count, gone := count + 1, gone + [x.value];
      }
    }

    // queue_remove_all without a predicate, and queue_destroy
    method RemoveEvery() returns (count: nat, gone: seq<T>)
      requires Valid()
      modifies this
      ensures Valid() && contents == [] && spine == []
      ensures gone == old(contents) && count == |gone|
    {
      var entry := head;
      ghost var nodes, data, j := spine, contents, 0;
      head, tail, entries := null, null, 0;
      spine, contents := [], [];
      count, gone := 0, [];
      while entry != null
        invariant 0 <= j <= |nodes| == |data| && entry == if j < |nodes| then nodes[j] else null
        invariant forall k {:trigger nodes[k].next} :: 0 <= k < |nodes| ==> nodes[k].next == At(nodes, k + 1)
        invariant forall k {:trigger nodes[k].data} :: 0 <= k < |nodes| ==> nodes[k].data == data[k]
        invariant count == j && gone == data[..j]
        decreases |nodes| - j
      {
        var tmp := entry;
        entry := entry.next;
        gone := gone + [tmp.data];
        count := count + 1;
        j := j + 1;
      }
    }

    // queue_length
    method Length() returns (n: nat)
      requires Valid()
      ensures n == |contents|
    {
      n := entries;
    }

    // queue_isempty
    method IsEmpty() returns (b: bool)
      requires Valid()
      ensures b == (contents == [])
    {
      b := entries == 0;
    }
  }

  // One round of queue_remove_all, with what the earlier rounds took out.
  lemma FilterTake<T>(was: seq<T>, f: T -> bool, gone: seq<T>)
    requires FirstMatch(was, f) < |was|
    ensures var j := FirstMatch(was, f); var now := DropAt(was, j);
            Filter(now, Not(f)) == Filter(was, Not(f)) && gone + [was[j]] + Filter(now, f) == gone + Filter(was, f)
  {
    FilterDrop(was, f);
    hide Filter, Not;
    var j := FirstMatch(was, f);
    assert gone + ([was[j]] + Filter(DropAt(was, j), f)) == gone + [was[j]] + Filter(DropAt(was, j), f);
  }

  lemma {:induction false} AllKept<T>(s: seq<T>, f: T -> bool)
    requires forall k :: 0 <= k < |s| ==> !f(s[k])
    ensures Filter(s, Not(f)) == s
  {
    if s != [] {
      AllKept(s[1..], f);
    }
  }
}
