/** Registration lists by category, drawn from one pool (src/notifier.c). */
module Notifiers {
  import opened KLists

  /** Where a block of the pool is. */
  datatype Place = Free | Idle | In(category: nat)

  /** The free blocks are those in the pool, and the registered ones those in the list of their category. */
  ghost predicate Places(where: map<Elem, Place>, pool: seq<Elem>, lists: seq<seq<Elem>>) {
    && Distinct(pool)
    && (forall e :: e in pool ==> e in where && where[e] == Free)
    && (forall e :: e in where && where[e] == Free ==> e in pool)
    && (forall c :: 0 <= c < |lists| ==> forall e :: e in lists[c] ==> e in where && where[e] == In(c))
    && (forall e :: e in where && where[e].In? ==> where[e].category < |lists| && e in lists[where[e].category])
  }

  /** The blocks `s` are linked from `head` on and know that they are in category `c`. */
  ghost predicate CategoryList(head: Elem?, s: seq<Elem>, c: nat)
    reads s
  {
    Linked(head, s) && forall i :: 0 <= i < |s| ==> s[i].category == c
  }

  function Removed(s: seq<Elem>, e: Elem): seq<Elem> {
    if s == [] then [] else if s[0] == e then s[1..] else [s[0]] + Removed(s[1..], e)
  }

  lemma {:induction false} RemovedAt(s: seq<Elem>, i: nat)
    requires i < |s| && Distinct(s)
    ensures Removed(s, s[i]) == Without(s, i)
  {
    if i > 0 {
      RemovedAt(s[1..], i - 1);
      assert Without(s, i) == [s[0]] + Without(s[1..], i - 1);
    }
  }

  lemma {:induction false} RemovedHas(s: seq<Elem>, e: Elem)
    requires Distinct(s)
    ensures forall x :: x in Removed(s, e) ==> x in s && x != e
    ensures forall x :: x in s && x != e ==> x in Removed(s, e)
  {
    if s != [] {
      RemovedHas(s[1..], e);
      assert forall x :: x in s <==> x == s[0] || x in s[1..];
    }
  }

  lemma AllocatingKeepsPlaces(where: map<Elem, Place>, pool: seq<Elem>, lists: seq<seq<Elem>>)
    requires Places(where, pool, lists) && pool != []
    ensures Places(where[pool[0] := Idle], pool[1..], lists)
  {
    assert forall e :: e in pool ==> e == pool[0] || e in pool[1..];
  }

  lemma RegisteringKeepsPlaces(where: map<Elem, Place>, pool: seq<Elem>, lists: seq<seq<Elem>>, e: Elem, c: nat)
    requires Places(where, pool, lists) && e in where && where[e] == Idle && c < |lists|
    ensures Places(where[e := In(c)], pool, lists[c := [e] + lists[c]])
  {
    var lists' := lists[c := [e] + lists[c]];
    forall d, x | 0 <= d < |lists'| && x in lists'[d]
      ensures x in where[e := In(c)] && where[e := In(c)][x] == In(d)
    {
      assert x in lists[d] || (d == c && x == e);
    }
  }

  /** The lists after block `e` has been deregistered. */
  function ListsWithout(where: map<Elem, Place>, lists: seq<seq<Elem>>, e: Elem): seq<seq<Elem>>
    requires e in where && (where[e].In? ==> where[e].category < |lists|)
  {
    if where[e].In? then lists[where[e].category := Removed(lists[where[e].category], e)] else lists
  }

  lemma LeavingLists(where: map<Elem, Place>, pool: seq<Elem>, lists: seq<seq<Elem>>, e: Elem)
    requires Places(where, pool, lists) && e in where && where[e] != Free
    requires where[e].In? ==> Distinct(lists[where[e].category])
    ensures forall d, x :: 0 <= d < |lists| && x in ListsWithout(where, lists, e)[d] ==> x in lists[d] && x != e
    ensures forall d, x :: 0 <= d < |lists| && x in lists[d] && x != e ==> x in ListsWithout(where, lists, e)[d]
  {
    if where[e].In? {
      RemovedHas(lists[where[e].category], e);
    }
    var lists' := ListsWithout(where, lists, e);
    forall d, x | 0 <= d < |lists| && x in lists'[d] ensures x in lists[d] && x != e {
      if where[e] != In(d) {
        assert lists'[d] == lists[d];
        assert where[x] == In(d);
      } else {
        assert x in Removed(lists[d], e);
      }
    }
    forall d, x | 0 <= d < |lists| && x in lists[d] && x != e ensures x in lists'[d] {
      assert where[e] != In(d) ==> lists'[d] == lists[d];
    }
  }

  lemma LeavingKeepsPlaces(where: map<Elem, Place>, pool: seq<Elem>, lists: seq<seq<Elem>>, e: Elem)
    requires Places(where, pool, lists) && e in where && where[e] != Free
    requires where[e].In? ==> Distinct(lists[where[e].category])
    ensures Places(where[e := Free], pool + [e], ListsWithout(where, lists, e))
  {
    LeavingLists(where, pool, lists, e);
    var where', lists' := where[e := Free], ListsWithout(where, lists, e);
    assert |lists'| == |lists|;
    forall d, x | 0 <= d < |lists'| && x in lists'[d] ensures x in where' && where'[x] == In(d) {
      assert x in lists[d];
    }
    assert Distinct(pool + [e]);
    forall x | x in where' && where'[x].In? ensures x in lists'[where'[x].category] {
      assert x in lists[where[x].category];
    }
  }

  ghost predicate IdleUnlinked(where: map<Elem, Place>)
    reads set e | e in where
  {
    forall e :: e in where && where[e] == Idle ==> e.prev == null && e.next == null
  }

  function OtherIdle(where: map<Elem, Place>, e: Elem): set<Elem> {
    set x | x in where && where[x] == Idle && x != e
  }

  lemma OtherIdleUnlisted(where: map<Elem, Place>, pool: seq<Elem>, lists: seq<seq<Elem>>, e: Elem)
    requires Places(where, pool, lists)
    ensures forall x :: x in OtherIdle(where, e) ==> x in where && where[x] == Idle && x != e
    ensures forall c, x :: 0 <= c < |lists| && x in OtherIdle(where, e) ==> x !in lists[c]
    ensures forall x :: x in where[e := Free] && where[e := Free][x] == Idle ==> x in OtherIdle(where, e)
  {
  }

  function Members(lists: seq<seq<Elem>>): (r: set<Elem>)
    ensures forall c :: 0 <= c < |lists| ==> forall e :: e in lists[c] ==> e in r
  {
    set c, e | 0 <= c < |lists| && e in lists[c] :: e
  }

  class Notifier {
    const heads: array<Elem?>
    /** The queue of free blocks behind pool_alloc and pool_free. */
    var pool: seq<Elem>
    /** The registered blocks of every category, newest first. */
    ghost var lists: seq<seq<Elem>>
    ghost var where: map<Elem, Place>

    ghost predicate Links(lists: seq<seq<Elem>>)
      reads heads, Members(lists)
    {
      && |lists| == heads.Length
      && forall c :: 0 <= c < |lists| ==> CategoryList(heads[c], lists[c], c)
    }

    ghost predicate Valid()
      reads this, heads, (set e | e in where), Members(lists)
    {
      && Places(where, pool, lists)
      && Links(lists)
      && IdleUnlinked(where)
    }

    /** notifier_init, with the blocks of a new pool. */
    constructor (heads: array<Elem?>, blocks: seq<Elem>)
      requires Distinct(blocks)
      modifies heads
      ensures Valid() && this.heads == heads && pool == blocks
      ensures forall c :: 0 <= c < |lists| ==> lists[c] == []
      ensures where == map e | e in blocks :: Free
    {
      this.heads := heads;
      pool, where := blocks, map e | e in blocks :: Free;
      lists := seq(heads.Length, _ => []);
      new;
      for i := 0 to heads.Length
        modifies heads
        invariant forall c :: 0 <= c < i ==> heads[c] == null
      {
        heads[i] := null;
      }
    }

    /** notifier_allocate_notification_block; asserts that the pool is not used up. */
    method Allocate() returns (e: Elem)
      requires Valid() && pool != []
      modifies this`pool, this`where, pool[0]
      ensures Valid()
      ensures e == old(pool)[0] && pool == old(pool)[1..] && where == old(where)[e := Idle]
      ensures e.prev == null && e.next == null && e.category == 0
    {
      AllocatingKeepsPlaces(where, pool, lists);
      e, pool := pool[0], pool[1..];
      e.prev, e.next, e.category := null, null, 0;
      where := where[e := Idle];
    }

    method LinkIn(category: nat, e: Elem)
      requires Links(lists) && category < heads.Length && e !in Members(lists) && e.next == null
      modifies heads, e, One(heads[category])`prev
      ensures Links(lists[category := [e] + lists[category]])
    {
      forall c | 0 <= c < |lists| && c != category
        ensures CategoryList(heads[c], lists[c], c)
        ensures forall i :: 0 <= i < |lists[c]| ==> lists[c][i] != e && lists[c][i] != heads[category]
      {
        assert CategoryList(heads[category], lists[category], category);
      }
      e.category := category;
      var head := Prepend(heads[category], e, lists[category]);
      heads[category] := head;
      forall c | 0 <= c < |lists| && c != category ensures CategoryList(heads[c], lists[c], c) {
        assert old(CategoryList(heads[c], lists[c], c));
      }
    }

    /** The same, seen from unlinked blocks that are neither this one nor in its list. */
    method LinkInBeside(category: nat, e: Elem, ghost idle: set<Elem>)
      requires Links(lists) && category < heads.Length && e !in Members(lists) && e.next == null
      requires forall x :: x in idle ==> x != e && x != heads[category] && x.prev == null && x.next == null
      modifies heads, e, One(heads[category])`prev
      ensures Links(lists[category := [e] + lists[category]])
      ensures forall x :: x in idle ==> x.prev == null && x.next == null
    {
      LinkIn(category, e);
    }

    /** The heap has become what `where'` and `lists'` say. */
    ghost method Settle(where': map<Elem, Place>, lists': seq<seq<Elem>>, idle: set<Elem>)
      requires Places(where', pool, lists') && Links(lists')
      requires forall x :: x in where' && where'[x] == Idle ==> x in idle
      requires forall x :: x in idle ==> x.prev == null && x.next == null
      modifies this`lists, this`where
      ensures Valid() && where == where' && lists == lists'
    {
      lists, where := lists', where';
    }

    /** notifier_register_notification_block, of a block that is not registered. */
    method Register(category: nat, e: Elem)
      requires Valid() && category < heads.Length && e in where && where[e] == Idle
      modifies this`lists, this`where, heads, e, One(heads[category])`prev
      ensures Valid()
      ensures lists == old(lists)[category := [e] + old(lists)[category]] && where == old(where)[e := In(category)]
    {
      RegisteringKeepsPlaces(where, pool, lists, e, category);
      assert CategoryList(heads[category], lists[category], category);
      ghost var idle := OtherIdle(where, e);
      OtherIdleUnlisted(where, pool, lists, e);
      assert e !in Members(lists);
      hide Places, CategoryList;
      LinkInBeside(category, e, idle);
      Settle(where[e := In(category)], lists[category := [e] + lists[category]], idle);
    }

    /** Where a registered block is. */
    lemma Position(e: Elem) returns (i: nat)
      requires Places(where, pool, lists) && Links(lists) && e in where && where[e].In?
      ensures where[e] == In(e.category) && i < |lists[e.category]| && lists[e.category][i] == e
      ensures Distinct(lists[e.category])
    {
      var c := where[e].category;
      assert CategoryList(heads[c], lists[c], c);
      i :| 0 <= i < |lists[c]| && lists[c][i] == e;
    }

    /** The first part of notifier_deregister_notification_block: the block is taken out of the list `s` it is in, or
        it is in none and a list of its own. */
    method Unlink(e: Elem, ghost s: seq<Elem>, ghost i: nat)
      requires e.category < heads.Length && i < |s| && s[i] == e && Linked(s[0], s)
      requires if heads[e.category] == e then i == 0 else i == 0 ==> e.prev == null
      modifies heads, (set x | x in s)`prev, (set x | x in s)`next
      ensures e.prev == null && e.next == null
      ensures i > 0 ==> Linked(s[0], Without(s, i))
      ensures i == 0 ==> Linked(old(e.next), s[1..])
      ensures heads[..] == old(if heads[e.category] == e then heads[..][e.category := e.next] else heads[..])
    {
      assert i + 1 < |s| ==> e.next == s[i + 1];
      assert i > 0 ==> e.prev == s[i - 1];
      if heads[e.category] == e {
        var head, popped := Pop(heads[e.category], s);
        assert popped == e;
        heads[e.category] := head;
        assert s[1..] == [] || head == s[1];
      } else {
        RemoveElem(e, s, i);
      }
    }

    /** Seen from all lists: the block is in the list of its category, or in none. */
    method TakeOut(e: Elem, ghost c: nat, ghost listed: bool, ghost i: nat)
      requires Links(lists) && c == e.category < heads.Length
      requires if listed then i < |lists[c]| && lists[c][i] == e
               else i == 0 && e !in Members(lists) && e.prev == null && e.next == null
      modifies heads, e`prev, e`next, (set x | x in lists[c])`prev, (set x | x in lists[c])`next
      ensures e.prev == null && e.next == null
      ensures Links(if listed then lists[c := Without(lists[c], i)] else lists)
    {
      ghost var s := if listed then lists[c] else [e];
      forall d | 0 <= d < |lists| && (d != c || !listed)
        ensures forall j :: 0 <= j < |lists[d]| ==> lists[d][j] !in s
      {
        assert CategoryList(heads[c], lists[c], c) && CategoryList(heads[d], lists[d], d);
      }
      assert CategoryList(heads[c], lists[c], c);
      Unlink(e, s, i);
      assert i == 0 ==> Without(s, i) == s[1..];
      assert forall k :: 0 <= k < |Without(s, i)| ==> Without(s, i)[k] == s[if k < i then k else k + 1];
      assert listed ==> CategoryList(heads[c], Without(lists[c], i), c);
      forall d | 0 <= d < |lists| && (d != c || !listed) ensures CategoryList(heads[d], lists[d], d) {
        assert old(CategoryList(heads[d], lists[d], d));
      }
    }

    /** The same, seen from unlinked blocks that are neither this one nor in its list. */
    method Detach(e: Elem, ghost c: nat, ghost listed: bool, ghost i: nat, ghost idle: set<Elem>)
      requires Links(lists) && c == e.category < heads.Length
      requires if listed then i < |lists[c]| && lists[c][i] == e
               else i == 0 && e !in Members(lists) && e.prev == null && e.next == null
      requires forall x :: x in idle ==> x != e && x !in lists[c] && x.prev == null && x.next == null
      modifies heads, e`prev, e`next, (set x | x in lists[c])`prev, (set x | x in lists[c])`next
      ensures Links(if listed then lists[c := Without(lists[c], i)] else lists)
      ensures forall x :: x in idle ==> x.prev == null && x.next == null
    {
      TakeOut(e, c, listed, i);
    }

    /** pool_free, when the block is in no list. */
    method FreeToPool(e: Elem, ghost where': map<Elem, Place>, ghost lists': seq<seq<Elem>>, ghost idle: set<Elem>)
      requires Places(where', pool + [e], lists') && Links(lists')
      requires forall x :: x in where' && where'[x] == Idle ==> x in idle
      requires forall x :: x in idle ==> x.prev == null && x.next == null
      modifies this
      ensures Valid() && pool == old(pool) + [e] && where == where' && lists == lists'
    {
      pool := pool + [e];
      Settle(where', lists', idle);
    }

    /** notifier_deregister_notification_block, of a registered block or one that is only allocated. */
    method Deregister(e: Elem)
      requires Valid() && e in where && where[e] != Free && e.category < heads.Length
      modifies this, heads, e, lists[e.category]
      ensures Valid() && pool == old(pool) + [e]
      ensures where == old(where)[e := Free] && lists == ListsWithout(old(where), old(lists), e)
    {
      ghost var i, listed := 0, where[e].In?;
      if listed {
        i := Position(e);
        RemovedAt(lists[e.category], i);
      } else {
        assert e !in Members(lists);
      }
      LeavingKeepsPlaces(where, pool, lists, e);
      ghost var idle := OtherIdle(where, e);
      OtherIdleUnlisted(where, pool, lists, e);
      hide Places, CategoryList, Removed;
      Detach(e, e.category, listed, i, idle);
      FreeToPool(e, where[e := Free], ListsWithout(where, lists, e), idle);
    }

    /** notifier_post_notification: the blocks whose callback runs, one after the other. */
    method Post(category: nat) returns (visited: seq<Elem>)
      requires Valid() && category < heads.Length
      ensures visited == lists[category]
    {
      assert CategoryList(heads[category], lists[category], category);
      visited := ForEach(heads[category], lists[category]);
    }

    /** No block is in the lists of two categories, and none is free or idle while it is in a list. */
    lemma ListsAreDisjoint(c: nat, d: nat, e: Elem)
      requires Valid() && c < |lists| && d < |lists| && e in lists[c] && e in lists[d]
      ensures c == d && e !in pool && where[e] != Idle
    {
    }
  }
}
