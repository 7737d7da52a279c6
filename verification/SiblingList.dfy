/** The children of an array or object in cJSON.c: a list linked both ways, whose first node points
    back to the last one. Each operation is a change of the sequence of children. */
module SiblingList {

  class Node {
    var next: Node?
    var prev: Node?

    constructor ()
      ensures next == null && prev == null
    {
      next, prev := null, null;
    }
  }

  ghost predicate Different(q: seq<Node>) { forall i, j :: 0 <= i < j < |q| ==> q[i] != q[j] }

  /** Every node points to the one behind it, the last one nowhere. */
  ghost predicate Forward(q: seq<Node>)
    reads q
  {
    forall i {:trigger q[i].next} :: 0 <= i < |q| ==> q[i].next == if i + 1 < |q| then q[i + 1] else null
  }

  /** Every node points to the one before it, the first one to the last. */
  ghost predicate Backward(q: seq<Node>)
    reads q
  {
    forall i {:trigger q[i].prev} :: 0 <= i < |q| ==> q[i].prev == if i > 0 then q[i - 1] else q[|q| - 1]
  }

  class Parent {
    var child: Node?
    ghost var items: seq<Node>

    ghost predicate Valid()
      reads this, items
    {
      && Different(items) && Forward(items) && Backward(items)
      && child == if items == [] then null else items[0]
    }

    constructor ()
      ensures Valid() && items == []
    {
      child, items := null, [];
    }

    /** get_array_item. */
    method GetItem(index: nat) returns (item: Node?)
      requires Valid()
      ensures item == if index < |items| then items[index] else null
    {
      item := child;
      var left := index;
      ghost var k := 0;
      while item != null && left > 0
        invariant 0 <= k <= |items| && k + left == index
        invariant item == if k < |items| then items[k] else null
        decreases left
      {
        assert items[k].next == if k + 1 < |items| then items[k + 1] else null;
        left := left - 1;
        item := item.next;
        k := k + 1;
      }
    }

    /** add_item_to_array. A node that is added to a list with others must not point anywhere. */
    method Add(item: Node)
      requires Valid() && item !in items && (items != [] ==> item.next == null)
      modifies this, items, item
      ensures Valid() && items == old(items) + [item]
    {
      if child == null {
        child := item;
        item.prev := item;
        item.next := null;
      } else {
        ghost var n := |items|;
        assert items[0].prev == items[n - 1];
        var last := child.prev;
        last.next := item;
        item.prev := last;
        child.prev := item;
      }
      items := items + [item];
    }

    /** cJSON_DetachItemViaPointer. */
    method Detach(item: Node, ghost k: nat)
      requires Valid() && k < |items| && items[k] == item
      modifies this, items
      ensures Valid() && items == old(items[..k] + items[k + 1..])
      ensures item.next == null && item.prev == null
    {
      ghost var q := items;
      assert q[k].next == if k + 1 < |q| then q[k + 1] else null;
      assert q[k].prev == if k > 0 then q[k - 1] else q[|q| - 1];
      if item != child {
        item.prev.next := item.next;
      }
      if item.next != null {
        item.next.prev := item.prev;
      }
      if item == child {
        child := item.next;
      } else if item.next == null {
        child.prev := item.prev;
      }
      item.prev := null;
      item.next := null;
      items := q[..k] + q[k + 1..];
    }

    /** cJSON_InsertItemInArray. */
    method Insert(which: int, item: Node) returns (ok: bool)
      requires Valid() && item !in items && item.next == null
      modifies this, items, item
      ensures Valid() && ok == (which >= 0)
      ensures ok ==>
        items == if which < |old(items)| then old(items[..which] + [item] + items[which..]) else old(items) + [item]
      ensures !ok ==> items == old(items)
    {
      if which < 0 {
        return false;
      }
      ok := true;
      var after := GetItem(which);
      if after == null {
        Add(item);
        return;
      }
      InsertBefore(after, which, item);
    }

    /** The end of cJSON_InsertItemInArray: a node is put before the one at position `k`. */
    method InsertBefore(after: Node, ghost k: nat, item: Node)
      requires Valid() && k < |items| && items[k] == after && item !in items
      modifies this, items, item
      ensures Valid() && items == old(items[..k] + [item] + items[k..])
    {
      ghost var q := items;
      assert q[k].prev == if k > 0 then q[k - 1] else q[|q| - 1];
      item.next := after;
      item.prev := after.prev;
      after.prev := item;
      if after == child {
        child := item;
      } else {
        item.prev.next := item;
      }
      items := q[..k] + [item] + q[k..];
    }

    /** cJSON_ReplaceItemViaPointer. */
    method Replace(item: Node, ghost k: nat, replacement: Node)
      requires Valid() && k < |items| && items[k] == item && (replacement in items ==> replacement == item)
      modifies this, items, replacement
      ensures Valid() && items == old(items)[k := replacement]
      ensures replacement != item ==> item.next == null && item.prev == null
    {
      ghost var q := items;
      if replacement == item {
        return;
      }
      assert q[k].next == if k + 1 < |q| then q[k + 1] else null;
      assert q[k].prev == if k > 0 then q[k - 1] else q[|q| - 1];
      replacement.next := item.next;
      replacement.prev := item.prev;
      if replacement.next != null {
        replacement.next.prev := replacement;
      }
      if child == item {
        if child.prev == child {
          replacement.prev := replacement;
        }
        child := replacement;
      } else {
        if replacement.prev != null {
          replacement.prev.next := replacement;
        }
        if replacement.next == null {
          child.prev := replacement;
        }
      }
      item.next := null;
      item.prev := null;
      items := q[k := replacement];
    }
  }
}
