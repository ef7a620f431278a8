/** The intrusive queue (inc/cutils/kqueue.h). */
module KQueues {
  import opened KLists
  import opened Basics

  /** What a queue hands to the callback of `items` it drops. */
  function Given(hasDrop: bool, items: seq<Elem>): seq<Elem> {
    if hasDrop then items else []
  }

  lemma GivenFirst(was: seq<Elem>, hasDrop: bool, s: seq<Elem>)
    requires s != []
    ensures was + Given(hasDrop, s) == (if hasDrop then was + [s[0]] else was) + Given(hasDrop, s[1..])
  {
    if hasDrop {
      assert s == [s[0]] + s[1..];
    }
  }

  lemma NoneGiven(was: seq<Elem>, hasDrop: bool)
    ensures was + Given(hasDrop, []) == was
  {
    assert was + [] == was;
  }

  /** What comes behind `e`. */
  function Behind(s: seq<Elem>, e: Elem?): seq<Elem> {
    if s == [] then [] else if s[0] == e then s[1..] else Behind(s[1..], e)
  }

  /** Dropping through an element leaves what is behind it, or nothing if it is not there. */
  lemma {:induction false} BehindIs(s: seq<Elem>, i: nat, e: Elem?)
    requires Distinct(s) && i <= |s| && (i < |s| ==> s[i] == e) && (i == |s| ==> e == null || e !in s)
    ensures Behind(s, e) == if i < |s| then s[i + 1..] else []
  {
    if s != [] && i > 0 {
      BehindIs(s[1..], i - 1, e);
    }
  }

  class KQueue {
    var head: Elem?
    var tail: Elem?
    var hasDrop: bool
    var itemCount: nat
    /** The elements handed to the drop callback, in the order of the calls. */
    var dropped: seq<Elem>
    ghost var items: seq<Elem>

    ghost predicate Valid()
      reads this, items
    {
      && Linked(head, items)
      && tail == (if items == [] then null else items[|items| - 1])
      && (items != [] ==> items[0].prev == null)
      && itemCount == |items|
    }

    /** kqueue_init. */
    constructor ()
      ensures Valid() && items == [] && !hasDrop && dropped == []
    {
      head, tail, hasDrop, itemCount := null, null, false, 0;
      dropped, items := [], [];
    }

    /** kqueue_is_empty. */
    method IsEmpty() returns (r: bool)
      requires Valid()
      ensures r <==> items == []
      ensures r <==> head == null
      ensures r <==> tail == null
    {
      r := !(head != null && tail != null);
    }

    /** kqueue_insert. The first element keeps the links it comes with, so they have to be null. */
    method Insert(item: Elem?)
      requires Valid()
      requires item != null ==> item !in items && (items == [] ==> item.next == null && item.prev == null)
      modifies this, One(tail), One(item)
      ensures Valid()
      ensures items == if item == null then old(items) else old(items) + [item]
      ensures dropped == old(dropped) && hasDrop == old(hasDrop)
    {
      if item != null {
        tail := Append(tail, item, items);
        if head == null {
          head := tail;
        }
        itemCount := itemCount + 1;
        items := items + [item];
      }
    }

    /** kqueue_dequeue. */
    method Dequeue() returns (item: Elem?)
      requires Valid()
      modifies this, items
      ensures Valid() && dropped == old(dropped) && hasDrop == old(hasDrop)
      ensures if old(items) == [] then item == null && items == []
              else item == old(items)[0] && items == old(items)[1..] && item.next == null && item.prev == null
    {
      item := null;
      var empty := IsEmpty();
      if !empty {
        ghost var rest := items[1..];
        assert head == tail <==> rest == [];
        if head == tail {
          tail := null;
        }
        item := head;
        assert item.next == if rest == [] then null else items[1];
        head := item.next;
        RemoveElem(item, items, 0);
        itemCount, items := itemCount - 1, rest;
      }
    }

    /** Takes the first element out of the queue and gives it to the drop callback. */
    method DropFirst() returns (item: Elem?)
      requires Valid()
      modifies this, items
      ensures Valid() && hasDrop == old(hasDrop)
      ensures if old(items) == [] then item == null && items == []
              else item == old(items)[0] && items == old(items)[1..]
      ensures dropped == if hasDrop && item != null then old(dropped) + [item] else old(dropped)
    {
      item := Dequeue();
      if item != null && hasDrop {
        dropped := dropped + [item];
      }
    }

    method RegisterDrop()
      requires Valid()
      modifies this`hasDrop
      ensures Valid() && hasDrop
    {
      hasDrop := true;
    }

    /** kqueue_drop_all. */
    method DropAll()
      requires Valid()
      modifies this, items
      ensures Valid() && items == [] && hasDrop == old(hasDrop)
      ensures dropped == old(dropped) + Given(hasDrop, old(items))
    {
      hide Linked, Distinct, Given;
      ghost var all, before := items, dropped;
      var empty := IsEmpty();
      while !empty
        invariant Valid() && hasDrop == old(hasDrop) && (empty <==> items == [])
        invariant forall i :: 0 <= i < |items| ==> items[i] in all
        invariant dropped + Given(hasDrop, items) == before + Given(hasDrop, all)
        decreases |items|
      {
        ghost var was, left := dropped, items;
        var e := DropFirst();
        GivenFirst(was, hasDrop, left);
        empty := IsEmpty();
      }
      NoneGiven(dropped, hasDrop);
    }

    /** kqueue_find_first. */
    method FindFirst(f: Elem -> bool) returns (found: Elem?)
      requires Valid()
      ensures found == null ==> forall e :: e in items ==> !f(e)
      ensures found != null ==>
        exists i :: 0 <= i < |items| && found == items[i] && f(items[i]) && forall j :: 0 <= j < i ==> !f(items[j])
    {
      found := KLists.FindFirst(head, f, items);
    }

    /** kqueue_drop_all_through_elem: the elements up to and with `elem`, or all if it is not there. The callback is
        called without asking whether there is one. */
    method DropAllThrough(elem: Elem?)
      requires Valid() && (items != [] ==> hasDrop)
      modifies this, items
      ensures Valid() && hasDrop == old(hasDrop)
      ensures dropped + items == old(dropped) + old(items)
      ensures items == Behind(old(items), elem)
    {
      hide Linked, Distinct;
      ghost var all, before := items, dropped;
      while true
        invariant Valid() && hasDrop == old(hasDrop) && (items != [] ==> hasDrop)
        invariant forall i :: 0 <= i < |items| ==> items[i] in all
        invariant dropped + items == before + all
        invariant Behind(items, elem) == Behind(all, elem)
        decreases |items|
      {
        ghost var was, left := dropped, items;
        var e := DropFirst();
        if e == null {
          break;
        }
        assert left == [e] + items;
        Associates(was, [e], items);
        if elem == e {
          break;
        }
      }
    }

    method GetItemCount() returns (n: nat)
      requires Valid()
      ensures n == |items|
    {
      n := itemCount;
    }
  }
}
