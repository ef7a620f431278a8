/** The intrusive list macros (inc/cutils/klist.h). */
module KLists {

  /** The two links, and what the client keeps behind them; only the notifier uses it. */
  class Elem {
    var prev: Elem?
    var next: Elem?
    var category: nat

    constructor ()
      ensures prev == null && next == null && category == 0
    {
      prev, next, category := null, null, 0;
    }
  }

  function One(e: Elem?): set<Elem> {
    if e == null then {} else {e}
  }

  ghost predicate Distinct(s: seq<Elem>) {
    forall i, j :: 0 <= i < j < |s| ==> s[i] != s[j]
  }

  /** The elements `s` are linked in this order from `head` on. Nothing is said about the first one's `prev`, in which
      popping leaves the element that was popped. */
  ghost predicate Linked(head: Elem?, s: seq<Elem>)
    reads s
  {
    && Distinct(s)
    && head == (if s == [] then null else s[0])
    && (forall i, j :: 0 <= i < j < |s| && j == i + 1 ==> s[i].next == s[j] && s[j].prev == s[i])
    && (s != [] ==> s[|s| - 1].next == null)
  }

  function Without(s: seq<Elem>, i: nat): seq<Elem>
    requires i < |s|
  {
    s[..i] + s[i + 1..]
  }

  /** KLIST_HEAD_PREPEND. An element put into an empty list keeps its own links. */
  method Prepend(head: Elem?, item: Elem?, ghost s: seq<Elem>) returns (head': Elem?)
    requires Linked(head, s)
    requires item != null ==> item !in s && (s == [] ==> item.next == null)
    modifies One(head)`prev, One(item)`prev, One(item)`next
    ensures item == null ==> head' == head && Linked(head, s)
    ensures item != null ==> Linked(head', [item] + s)
  {
    head' := head;
    if item != null {
      if head != null {
        head.prev := item;
        item.prev := null;
        item.next := head;
      }
      head' := item;
    }
  }

  /** KLIST_HEAD_POP. */
  method Pop(head: Elem?, ghost s: seq<Elem>) returns (head': Elem?, item: Elem?)
    requires Linked(head, s)
    modifies One(head)`prev, One(head)`next
    ensures s == [] ==> item == null && head' == null
    ensures s != [] ==> item == s[0] && item.prev == null && item.next == null && Linked(head', s[1..])
  {
    if head != null {
      item := head;
      head' := head.next;
      item.next, item.prev := null, null;
    } else {
      item, head' := null, head;
    }
  }

  /** KLIST_TAIL_APPEND. */
  method Append(tail: Elem?, item: Elem, ghost s: seq<Elem>) returns (tail': Elem)
    requires s == [] <==> tail == null
    requires tail != null ==> tail == s[|s| - 1] && Linked(s[0], s)
    requires item !in s && (s == [] ==> item.next == null)
    modifies One(tail)`next, item`prev, item`next
    ensures tail' == item && Linked((s + [item])[0], s + [item])
    ensures s == [] ==> item.prev == old(item.prev)
  {
    if tail != null {
      tail.next := item;
      item.next := null;
      item.prev := tail;
    }
    tail' := item;
  }

  /** KLIST_REMOVE_ELEM follows both links of the element: the first of a list may only be removed in this way if it has
      no `prev`. An element in no list, its links null, counts as a list of its own. */
  method RemoveElem(item: Elem, ghost s: seq<Elem>, ghost i: nat)
    requires i < |s| && item == s[i] && Linked(s[0], s)
    requires i == 0 ==> item.prev == null
    modifies item`prev, item`next, One(item.next)`prev, One(item.prev)`next
    ensures item.prev == null && item.next == null
    ensures i > 0 ==> Linked(s[0], Without(s, i))
    ensures i == 0 ==> Linked(old(item.next), s[1..])
    ensures i == 0 && |s| > 1 ==> s[1].prev == null
  {
    assert item.next == if i + 1 < |s| then s[i + 1] else null;
    assert item.prev == if i > 0 then s[i - 1] else null;
    if item.next != null {
      item.next.prev := item.prev;
    }
    if item.prev != null {
      item.prev.next := item.next;
    }
    item.next, item.prev := null, null;
  }

  /** What KLIST_HEAD_FOREACH visits when the handler leaves the list alone. */
  method ForEach(head: Elem?, ghost s: seq<Elem>) returns (visited: seq<Elem>)
    requires Linked(head, s)
    ensures visited == s
  {
    var e := head;
    visited := [];
    while e != null
      invariant |visited| <= |s| && visited == s[..|visited|]
      invariant e == if |visited| < |s| then s[|visited|] else null
      decreases |s| - |visited|
    {
      var next := e.next;
      visited := visited + [e];
      e := next;
    }
  }

  /** KLIST_HEAD_FIND_FIRST. */
  method FindFirst(head: Elem?, f: Elem -> bool, ghost s: seq<Elem>) returns (found: Elem?)
    requires Linked(head, s)
    ensures found == null ==> forall e :: e in s ==> !f(e)
    ensures found != null ==>
      exists i :: 0 <= i < |s| && found == s[i] && f(s[i]) && forall j :: 0 <= j < i ==> !f(s[j])
  {
    var e := head;
    ghost var n := 0;
    while e != null
      invariant n <= |s| && (forall j :: 0 <= j < n ==> !f(s[j]))
      invariant e == if n < |s| then s[n] else null
      decreases |s| - n
    {
      var next := e.next;
      if f(e) {
        return e;
      }
      e, n := next, n + 1;
    }
    found := null;
  }
}
