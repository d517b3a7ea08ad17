/** The singly linked list of bluez/queue.c: a head, a tail and an entry count that have to
    stay in step with the chain of entries. */
module Queue {
  import opened Wrappers

  class Entry<T> {
    var data: T
    var next: Entry?<T>

    constructor (data: T)
      ensures this.data == data && next == null
    {
      this.data := data;
      next := null;
    }
  }

  // ---- the same operations on sequences

  /** The index of the first element that matches, or the length. */
  function FirstIndex<T>(s: seq<T>, p: T -> bool): (i: nat)
    ensures i <= |s|
    ensures i < |s| ==> p(s[i])
    ensures forall j :: 0 <= j < i ==> !p(s[j])
  {
    if |s| == 0 || p(s[0]) then 0 else 1 + FirstIndex(s[1..], p)
  }

  lemma {:induction false} FirstIndexIs<T>(s: seq<T>, p: T -> bool, i: nat)
    requires i <= |s| && (i < |s| ==> p(s[i])) && forall j :: 0 <= j < i ==> !p(s[j])
    ensures FirstIndex(s, p) == i
    decreases |s|
  {
    if |s| > 0 && !p(s[0]) {
      assert i > 0;
      FirstIndexIs(s[1..], p, i - 1);
    }
  }

  function RemoveAt<T>(s: seq<T>, i: nat): seq<T>
    requires i < |s|
  {
    seq(|s| - 1, j requires 0 <= j < |s| - 1 => if j < i then s[j] else s[j + 1])
  }

  function InsertAt<T>(s: seq<T>, i: nat, x: T): seq<T>
    requires i <= |s|
  {
    seq(|s| + 1, j requires 0 <= j < |s| + 1 => if j < i then s[j] else if j == i then x else s[j - 1])
  }

  lemma Slices<T>(s: seq<T>, i: nat, x: T)
    ensures i < |s| ==> RemoveAt(s, i) == s[..i] + s[i + 1..]
    ensures i <= |s| ==> InsertAt(s, i, x) == s[..i] + [x] + s[i..]
  {
  }

  function Filter<T>(s: seq<T>, p: T -> bool): seq<T> {
    if |s| == 0 then [] else (if p(s[0]) then [s[0]] else []) + Filter(s[1..], p)
  }

  lemma FilterCons<T>(x: T, rest: seq<T>, p: T -> bool)
    ensures Filter([x] + rest, p) == (if p(x) then [x] else []) + Filter(rest, p)
  {
    assert ([x] + rest)[1..] == rest;
  }

  lemma {:induction false} FilterAppend<T>(a: seq<T>, b: seq<T>, p: T -> bool)
    ensures Filter(a + b, p) == Filter(a, p) + Filter(b, p)
    decreases |a|
  {
    if |a| == 0 {
      assert a + b == b;
    } else {
      hide Filter;
      assert a == [a[0]] + a[1..];
      assert a + b == [a[0]] + (a[1..] + b);
      FilterCons(a[0], a[1..], p);
      FilterCons(a[0], a[1..] + b, p);
      FilterAppend(a[1..], b, p);
    }
  }

  lemma {:induction false} FilterNone<T>(s: seq<T>, p: T -> bool)
    requires forall x :: x in s ==> !p(x)
    ensures Filter(s, p) == []
    decreases |s|
  {
    if |s| > 0 {
      assert s[0] in s;
      FilterNone(s[1..], p);
    }
  }

  lemma {:induction false} FilterAll<T>(s: seq<T>, p: T -> bool)
    requires forall x :: x in s ==> p(x)
    ensures Filter(s, p) == s
    decreases |s|
  {
    if |s| > 0 {
      assert s[0] in s;
      FilterAll(s[1..], p);
    }
  }

  lemma FilterSplit<T>(s: seq<T>, i: nat, p: T -> bool)
    requires i < |s|
    ensures Filter(s, p) == Filter(s[..i], p) + ((if p(s[i]) then [s[i]] else []) + Filter(s[i + 1..], p))
    ensures Filter(RemoveAt(s, i), p) == Filter(s[..i], p) + Filter(s[i + 1..], p)
  {
    assert s == s[..i] + s[i..];
    assert s[i..][1..] == s[i + 1..];
    Slices(s, i, s[i]);
    FilterAppend(s[..i], s[i..], p);
    FilterAppend(s[..i], s[i + 1..], p);
  }

  /** Taking out the first match repeatedly is a filter. */
  lemma RemoveFirstMatch<T>(s: seq<T>, p: T -> bool, i: nat)
    requires i < |s| && p(s[i]) && forall j :: 0 <= j < i ==> !p(s[j])
    ensures Filter(s, p) == [s[i]] + Filter(RemoveAt(s, i), p)
  {
    FilterSplit(s, i, p);
    FilterNone(s[..i], p);
  }

  lemma RemoveOther<T>(s: seq<T>, q: T -> bool, i: nat)
    requires i < |s| && !q(s[i])
    ensures Filter(s, q) == Filter(RemoveAt(s, i), q)
  {
    FilterSplit(s, i, q);
  }

  /** One step of taking out matches, seen by the two filters. */
  lemma FirstRemoved<T>(s: seq<T>, p: T -> bool, q: T -> bool, done: seq<T>)
    requires forall x :: q(x) == !p(x)
    ensures var i := FirstIndex(s, p);
            if i == |s| then Filter(s, p) == [] && Filter(s, q) == s
            else
              && Filter(s, q) == Filter(RemoveAt(s, i), q)
              && done + Filter(s, p) == (done + [s[i]]) + Filter(RemoveAt(s, i), p)
  {
    var i := FirstIndex(s, p);
    if i == |s| {
      FilterNone(s, p);
      FilterAll(s, q);
    } else {
      RemoveFirstMatch(s, p, i);
      RemoveOther(s, q, i);
    }
  }

  // ---- the list

  function At<T>(chain: seq<Entry<T>>, i: int): Entry?<T> {
    if 0 <= i < |chain| then chain[i] else null
  }

  /** What is before the new element and what is behind it. */
  lemma Spliced<T>(s: seq<T>, i: nat, x: T)
    requires i <= |s|
    ensures var r := InsertAt(s, i, x);
            && |r| == |s| + 1 && r[i] == x
            && (forall k :: 0 <= k < i ==> r[k] == s[k])
            && (forall k :: i < k <= |s| ==> r[k] == s[k - 1])
  {
  }

  lemma CutOut<T>(s: seq<T>, i: nat)
    requires i < |s|
    ensures var r := RemoveAt(s, i);
            && |r| == |s| - 1
            && (forall k :: 0 <= k < i ==> r[k] == s[k])
            && (forall k :: i <= k < |r| ==> r[k] == s[k + 1])
  {
  }

  lemma StillDistinct<T>(s: seq<T>, i: nat, x: T)
    requires i <= |s| && x !in s && forall j, k :: 0 <= j < k < |s| ==> s[j] != s[k]
    ensures var r := InsertAt(s, i, x); forall j, k :: 0 <= j < k < |r| ==> r[j] != r[k]
  {
  }

  class List<T(==)> {
    var head: Entry?<T>
    var tail: Entry?<T>
    var entries: nat
    ghost var chain: seq<Entry<T>>
    ghost var contents: seq<T>

    /** Head, tail, count and contents are those of the chain. */
    ghost predicate Valid()
      reads this, chain
    {
      && entries == |chain| == |contents|
      && (forall i {:trigger chain[i].data} {:trigger contents[i]} :: 0 <= i < |chain| ==> chain[i].data == contents[i])
      && (forall i, j :: 0 <= i < j < |chain| ==> chain[i] != chain[j])
      && head == At(chain, 0)
      && tail == At(chain, |chain| - 1)
      && (forall i {:trigger chain[i].next} :: 0 <= i < |chain| ==> chain[i].next == At(chain, i + 1))
    }

    constructor ()
      ensures Valid() && contents == [] && fresh(this)
    {
      head, tail, entries := null, null, 0;
      chain, contents := [], [];
    }

    method PushTail(data: T)
      requires Valid()
      modifies this, chain
      ensures Valid() && fresh(set e | e in chain && e !in old(chain))
      ensures contents == old(contents) + [data]
    {
      var entry := new Entry(data);
      if tail != null {
        tail.next := entry;
      }
      tail := entry;
      if head == null {
        head := entry;
      }
      entries := entries + 1;
      chain, contents := chain + [entry], contents + [data];
    }

    method PushHead(data: T)
      requires Valid()
      modifies this
      ensures Valid() && fresh(set e | e in chain && e !in old(chain))
      ensures contents == [data] + old(contents)
    {
      var entry := new Entry(data);
      entry.next := head;
      head := entry;
      if tail == null {
        tail := entry;
      }
      entries := entries + 1;
      ghost var was := chain;
      chain, contents := [entry] + chain, [data] + contents;
      assert chain[0] == entry && forall i :: 0 < i < |chain| ==> chain[i] == was[i - 1];
      assert forall i :: 0 < i < |chain| ==> contents[i] == old(contents)[i - 1];
      assert entry !in was;
    }

    method PushAfter(entry: T, data: T) returns (ok: bool)
      requires Valid()
      modifies this, chain
      ensures Valid() && fresh(set e | e in chain && e !in old(chain))
      ensures ok <==> entry in old(contents)
      ensures var s, i := old(contents), FirstIndex(old(contents), (x: T) => x == entry);
              contents == if ok then InsertAt(s, i + 1, data) else s
    {
      ghost var p := (x: T) => x == entry;
      var tmp := head;
      ghost var i := 0;
      while tmp != null && tmp.data != entry
        invariant 0 <= i <= |chain| && tmp == At(chain, i)
        invariant forall j :: 0 <= j < i ==> contents[j] != entry
        decreases |chain| - i
      {
        tmp := tmp.next;
        i := i + 1;
      }
      FirstIndexIs(contents, p, i);
      if tmp == null {
        return false;
      }
      assert contents[i] == entry;
      InsertAfter(tmp, data, i);
      return true;
    }

    method InsertAfter(qentry: Entry<T>, data: T, ghost i: nat)
      requires Valid() && i < |chain| && qentry == chain[i]
      modifies this, qentry
      ensures Valid() && fresh(set e | e in chain && e !in old(chain))
      ensures contents == InsertAt(old(contents), i + 1, data)
    {
      hide InsertAt;
      var entry := new Entry(data);
      entry.next := qentry.next;
      if qentry.next == null {
        tail := entry;
      }
      qentry.next := entry;
      entries := entries + 1;
      assert entry !in chain;
      Spliced(chain, i + 1, entry);
      Spliced(contents, i + 1, data);
      StillDistinct(chain, i + 1, entry);
      chain, contents := InsertAt(chain, i + 1, entry), InsertAt(contents, i + 1, data);
      assert forall k {:trigger chain[k].data} :: 0 <= k < |chain| ==> chain[k].data == contents[k];
      assert forall j, k :: 0 <= j < k < |chain| ==> chain[j] != chain[k];
      assert tail == At(chain, |chain| - 1);
      assert forall k {:trigger chain[k].next} :: 0 <= k < |chain| ==> chain[k].next == At(chain, k + 1);
    }

    method PopHead() returns (data: Option<T>)
      requires Valid()
      modifies this
      ensures Valid() && chain == old(if |chain| == 0 then [] else chain[1..])
      ensures data == if |old(contents)| == 0 then None else Some(old(contents)[0])
      ensures contents == if |old(contents)| == 0 then [] else old(contents)[1..]
    {
      if head == null {
        return None;
      }
      var entry := head;
      if head.next == null {
        head := null;
        tail := null;
      } else {
        head := head.next;
      }
      data := Some(entry.data);
      entries := entries - 1;
      chain, contents := chain[1..], contents[1..];
      assert forall i :: 0 <= i < |chain| ==> chain[i] == old(chain)[i + 1];
    }

    method PeekHead() returns (data: Option<T>)
      requires Valid()
      ensures data == if |contents| == 0 then None else Some(contents[0])
    {
      return if head == null then None else Some(head.data);
    }

    method PeekTail() returns (data: Option<T>)
      requires Valid()
      ensures data == if |contents| == 0 then None else Some(contents[|contents| - 1])
    {
      return if tail == null then None else Some(tail.data);
    }

    method Find(p: T -> bool) returns (data: Option<T>)
      requires Valid()
      ensures var i := FirstIndex(contents, p);
              data == if i == |contents| then None else Some(contents[i])
    {
      var entry := head;
      ghost var i := 0;
      while entry != null && !p(entry.data)
        invariant 0 <= i <= |chain| && entry == At(chain, i)
        invariant forall j :: 0 <= j < i ==> !p(contents[j])
        decreases |chain| - i
      {
        entry := entry.next;
        i := i + 1;
      }
      FirstIndexIs(contents, p, i);
      return if entry == null then None else Some(entry.data);
    }

    /** The common end of queue_remove and queue_remove_if: take out the entry after prev. */
    method Unlink(prev: Entry?<T>, entry: Entry<T>, ghost i: nat)
      requires Valid() && i < |chain| && entry == chain[i]
      requires prev == At(chain, i - 1)
      modifies this, prev
      ensures Valid() && chain == RemoveAt(old(chain), i)
      ensures contents == RemoveAt(old(contents), i)
    {
      hide RemoveAt;
      if prev != null {
        prev.next := entry.next;
      } else {
        head := entry.next;
      }
      if entry.next == null {
        tail := prev;
      }
      entries := entries - 1;
      CutOut(chain, i);
      CutOut(contents, i);
      chain, contents := RemoveAt(chain, i), RemoveAt(contents, i);
      assert forall j, k :: 0 <= j < k < |chain| ==> chain[j] != chain[k];
      assert tail == At(chain, |chain| - 1);
      assert forall k {:trigger chain[k].next} :: 0 <= k < |chain| ==> chain[k].next == At(chain, k + 1);
    }

    method Remove(data: T) returns (removed: bool)
      requires Valid()
      modifies this, chain
      ensures Valid() && forall i :: 0 <= i < |chain| ==> chain[i] in old(chain)
      ensures removed <==> data in old(contents)
      ensures var s, i := old(contents), FirstIndex(old(contents), (x: T) => x == data);
              contents == if removed then RemoveAt(s, i) else s
    {
      ghost var s := contents;
      ghost var p := (x: T) => x == data;
      var entry, prev := head, null;
      ghost var i := 0;
      while entry != null
        invariant 0 <= i <= |chain| && entry == At(chain, i)
        invariant prev == At(chain, i - 1)
        invariant forall j :: 0 <= j < i ==> s[j] != data
        decreases |chain| - i
      {
        if entry.data == data {
          assert s[i] == data;
          FirstIndexIs(s, p, i);
          Unlink(prev, entry, i);
          return true;
        }
        prev, entry := entry, entry.next;
        i := i + 1;
      }
      return false;
    }

    method RemoveIf(p: T -> bool) returns (data: Option<T>)
      requires Valid()
      modifies this, chain
      ensures Valid() && forall i :: 0 <= i < |chain| ==> chain[i] in old(chain)
      ensures var s, i := old(contents), FirstIndex(old(contents), p);
              if i == |s| then data == None && contents == s && entries == old(entries)
              else data == Some(s[i]) && contents == RemoveAt(s, i) && entries == old(entries) - 1
    {
      ghost var s := contents;
      var entry, prev := head, null;
      ghost var i := 0;
      while entry != null
        invariant 0 <= i <= |chain| && entry == At(chain, i)
        invariant prev == At(chain, i - 1)
        invariant forall j :: 0 <= j < i ==> !p(s[j])
        decreases |chain| - i
      {
        if p(entry.data) {
          FirstIndexIs(s, p, i);
          Unlink(prev, entry, i);
          return Some(entry.data);
        }
        prev, entry := entry, entry.next;
        i := i + 1;
      }
      FirstIndexIs(s, p, i);
      return None;
    }

    /** queue_remove_all with a match function: it removes first matches until the count
        stops changing. `destroyed` are the arguments of the destroy calls, in order. */
    method RemoveMatching(p: T -> bool) returns (count: nat, destroyed: seq<T>)
      requires Valid()
      modifies this, chain
      ensures Valid() && forall i :: 0 <= i < |chain| ==> chain[i] in old(chain)
      ensures destroyed == Filter(old(contents), p) && count == |destroyed|
      ensures contents == Filter(old(contents), (x: T) => !p(x))
    {
      ghost var q := (x: T) => !p(x);
      ghost var s := contents;
      count, destroyed := 0, [];
      var entry := head;
      while entry != null
        invariant Valid() && count == |destroyed| && forall i :: 0 <= i < |chain| ==> chain[i] in old(chain)
        invariant Filter(s, p) == destroyed + Filter(contents, p)
        invariant Filter(s, q) == Filter(contents, q)
        invariant entry == null ==> |contents| == 0
        decreases entries
      {
        var before := entries;
        FirstRemoved(contents, p, q, destroyed);
        var data := RemoveIf(p);
        if before == entries {
          return;
        }
        destroyed := destroyed + [data.value];
        count := count + 1;
      }
    }

    /** queue_remove_all without a match function: the list is emptied first, then the
        detached entries are destroyed one after the other. */
    method RemoveEverything() returns (count: nat, destroyed: seq<T>)
      requires Valid()
      modifies this
      ensures Valid() && contents == []
      ensures destroyed == old(contents) && count == old(entries)
    {
      ghost var s, detached := contents, chain;
      var entry := head;
      count, destroyed := 0, [];
      head, tail, entries := null, null, 0;
      chain, contents := [], [];
      while entry != null
        invariant Valid() && contents == []
        invariant 0 <= count <= |s| && entry == At(detached, count)
        invariant destroyed == s[..count]
        decreases |s| - count
      {
        assert s[count] == entry.data;
        destroyed := destroyed + [entry.data];
        entry := entry.next;
        count := count + 1;
      }
    }

    method Length() returns (n: nat)
      requires Valid()
      ensures n == |contents|
    {
      return entries;
    }

    method IsEmpty() returns (empty: bool)
      requires Valid()
      ensures empty <==> contents == []
    {
      return entries == 0;
    }
  }
}
