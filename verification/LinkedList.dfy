/** The intrusive doubly linked list: the links live in the nodes, a head holds both ends and a count. */
module LinkedLists {
  import opened Seqs

  class ListItem {
    var prev: ListItem?
    var next: ListItem?

    constructor ()
      ensures prev == null && next == null
    {
      prev, next := null, null;
    }
  }

  ghost predicate LinkedAt(s: seq<ListItem>, i: nat)
    requires i < |s|
    reads s[i]
  {
    && s[i].prev == (if i == 0 then null else s[i - 1])
    && s[i].next == (if i == |s| - 1 then null else s[i + 1])
  }

  ghost predicate Chain(s: seq<ListItem>)
    reads s
  {
    forall i :: 0 <= i < |s| ==> LinkedAt(s, i)
  }

  /** `s` with `item` right after `prev`, or in front when there is no `prev`. */
  ghost function InsertAfter(s: seq<ListItem>, prev: ListItem?, item: ListItem): seq<ListItem>
    requires prev == null || prev in s
  {
    if prev == null then [item] + s
    else if s[0] == prev then [s[0], item] + s[1..]
    else [s[0]] + InsertAfter(s[1..], prev, item)
  }

  lemma {:induction false} InsertAfterSplit(s: seq<ListItem>, prev: ListItem, item: ListItem) returns (i: nat)
    requires prev in s
    ensures i < |s| && s[i] == prev && InsertAfter(s, prev, item) == s[..i + 1] + [item] + s[i + 1..]
  {
    if s[0] == prev {
      i := 0;
      assert s[..1] + [item] + s[1..] == [s[0], item] + s[1..];
    } else {
      var j := InsertAfterSplit(s[1..], prev, item);
      i := j + 1;
      assert s[..i + 1] + [item] + s[i + 1..] == [s[0]] + (s[1..][..j + 1] + [item] + s[1..][j + 1..]);
    }
  }

  /** Detaching what was just inserted gives the list as it was. */
  lemma {:induction false} DetachUndoesInsert(s: seq<ListItem>, prev: ListItem?, item: ListItem)
    requires (prev == null || prev in s) && item !in s
    ensures item in InsertAfter(s, prev, item)
    ensures Without(InsertAfter(s, prev, item), item) == s
  {
    if prev != null {
      if s[0] == prev {
        var t := [item] + s[1..];
        assert ([s[0], item] + s[1..])[1..] == t;
        assert Without(t, item) == s[1..];
      } else {
        DetachUndoesInsert(s[1..], prev, item);
        assert ([s[0]] + InsertAfter(s[1..], prev, item))[1..] == InsertAfter(s[1..], prev, item);
      }
    }
  }

  lemma {:induction false} InsertAfterLast(s: seq<ListItem>, item: ListItem)
    requires NoDup(s) && s != []
    ensures InsertAfter(s, s[|s| - 1], item) == s + [item]
  {
    if |s| > 1 {
      InsertAfterLast(s[1..], item);
    }
  }

  class ListHead {
    var first: ListItem?
    var last: ListItem?
    var size: int
    /** The nodes from first to last. */
    ghost var items: seq<ListItem>

    ghost predicate Ends()
      reads this
    {
      && first == (if items == [] then null else items[0])
      && last == (if items == [] then null else items[|items| - 1])
      && size == |items|
    }

    ghost predicate Valid()
      reads this, items
    {
      NoDup(items) && Chain(items) && Ends()
    }

    constructor Init()
      ensures Valid() && items == []
    {
      first, last, size, items := null, null, 0, [];
    }

    method Find(item: ListItem) returns (r: ListItem?)
      requires Valid()
      ensures r == if item in items then item else null
    {
      var aux := first;
      ghost var i := 0;
      while aux != null
        invariant 0 <= i <= |items|
        invariant aux == if i == |items| then null else items[i]
        invariant item !in items[..i]
        decreases |items| - i
      {
        if aux == item {
          return item;
        }
        assert LinkedAt(items, i);
        aux := aux.next;
        i := i + 1;
      }
      return null;
    }

    /** Inserts `item` right after `prev` (in front when null). A node that still has a link is refused and
        nothing changes; its being in this very list with both links null is what the debug build asserts away. */
    method Insert(prev: ListItem?, item: ListItem) returns (r: ListItem?)
      requires Valid() && (prev == null || prev in items)
      requires item in items ==> item.next != null || item.prev != null
      modifies this, item, items
      ensures Valid()
      ensures old(item.next != null || item.prev != null) ==>
                r == null && unchanged(this) && unchanged(item) && unchanged(old(items))
      ensures old(item.next == null && item.prev == null) ==>
                r == item && items == InsertAfter(old(items), prev, item)
    {
      if item.next != null || item.prev != null {
        return null;
      }
      ghost var k := 0;
      if prev != null {
        var i := InsertAfterSplit(items, prev, item);
        k := i + 1;
        assert LinkedAt(items, i);
      } else {
        assert items[..0] + [item] + items[0..] == [item] + items;
      }
      var next := if prev != null then prev.next else first;
      Link(prev, next, item, k);
      return item;
    }

    /** The link writes of insert, at position `k`. */
    method Link(prev: ListItem?, next: ListItem?, item: ListItem, ghost k: nat)
      requires Valid() && item !in items && item.prev == null && item.next == null && k <= |items|
      requires prev == (if k == 0 then null else items[k - 1]) && next == (if k == |items| then null else items[k])
      modifies this, item, items
      ensures Valid() && items == old(items[..k] + [item] + items[k..])
    {
      ghost var s := items;
      ghost var t := s[..k] + [item] + s[k..];
      if prev != null {
        item.prev := prev;
        prev.next := item;
      }
      if next != null {
        item.next := next;
        next.prev := item;
      }
      if prev == null {
        first := item;
      }
      if next == null {
        last := item;
      }
      size := size + 1;
      items := t;
      forall i | 0 <= i < |t| ensures LinkedAt(t, i) {
        if i != k {
          ghost var j := if i < k then i else i - 1;
          assert t[i] == s[j] && t[i] != item && old(LinkedAt(s, j));
          assert j != k - 1 && k > 0 ==> s[j] != s[k - 1];
          assert j != k && k < |s| ==> s[j] != s[k];
        }
      }
    }

    /** Takes `item`, which must be in the list, out of it and clears its links. */
    method Detach(item: ListItem) returns (r: ListItem)
      requires Valid() && item in items
      modifies this, items
      ensures Valid() && r == item
      ensures items == Without(old(items), item)
      ensures item.prev == null && item.next == null
    {
      ghost var k := WithoutSplit(items, item);
      Unlink(item, k);
      return item;
    }

    /** The link writes of detach, at position `k`. */
    method Unlink(item: ListItem, ghost k: nat)
      requires Valid() && k < |items| && items[k] == item
      modifies this, items
      ensures Valid() && items == old(items[..k] + items[k + 1..])
      ensures item.prev == null && item.next == null
    {
      ghost var s := items;
      ghost var t := s[..k] + s[k + 1..];
      assert forall i :: 0 <= i < |t| ==> t[i] == s[if i < k then i else i + 1];
      assert LinkedAt(s, k);
      var prev := item.prev;
      var next := item.next;
      if prev != null {
        prev.next := next;
      }
      if next != null {
        next.prev := prev;
      }
      if item == first {
        first := next;
      }
      if item == last {
        last := prev;
      }
      size := size - 1;
      item.next, item.prev := null, null;
      items := t;
      forall i | 0 <= i < |t| ensures LinkedAt(t, i) {
        ghost var j := if i < k then i else i + 1;
        assert t[i] == s[j] && t[i] != item && old(LinkedAt(s, j));
        assert j != k - 1 && k > 0 ==> s[j] != s[k - 1];
        assert j != k + 1 && k + 1 < |s| ==> s[j] != s[k + 1];
      }
    }
  }

  /** Two lists that share no node. */
  ghost predicate Separate(a: ListHead, b: ListHead)
    reads a, b
  {
    a != b && forall x :: x in a.items ==> x !in b.items
  }

  /** The move every kernel handler is made of: out of one list, onto the end of another. */
  method MoveToEnd(source: ListHead, target: ListHead, item: ListItem)
    requires source.Valid() && target.Valid() && Separate(source, target)
    requires item in source.items
    modifies source, target, source.items, target.items
    ensures source.Valid() && target.Valid() && Separate(source, target)
    ensures source.items == Without(old(source.items), item)
    ensures target.items == old(target.items) + [item]
  {
    ghost var s, t := source.items, target.items;
    WithoutMembers(s, item);
    var _ := source.Detach(item);
    forall i | 0 <= i < |t| ensures LinkedAt(t, i) {
      assert old(LinkedAt(t, i)) && t[i] in t;
    }
    var _ := target.Insert(target.last, item);
    if t != [] {
      InsertAfterLast(t, item);
    }
    forall i | 0 <= i < |source.items| ensures LinkedAt(source.items, i) {
      assert source.items[i] in source.items;
    }
  }
}
