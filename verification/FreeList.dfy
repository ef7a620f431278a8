/** The last-in first-out list of free items (inc/cutils/free_list.h). */
module FreeLists {
  import opened KLists

  /** Distinct elements drawn from others, with one of those left over, are fewer. */
  lemma {:induction false} FewerThan(s: seq<Elem>, all: set<Elem>, left: Elem)
    requires Distinct(s) && (forall e :: e in s ==> e in all) && left in all && left !in s
    ensures |s| < |all|
    decreases |s|
  {
    if s != [] {
      var last := s[|s| - 1];
      FewerThan(s[..|s| - 1], all - {last}, left);
    }
  }

  function Elements(s: seq<Elem>): set<Elem> {
    set e | e in s
  }

  lemma {:induction false} OutIsTheRest(s: seq<Elem>, all: set<Elem>)
    requires Distinct(s) && forall e :: e in s ==> e in all
    ensures |all - Elements(s)| + |s| == |all|
    decreases |s|
  {
    if s == [] {
      assert all - Elements(s) == all;
    } else {
      var last, rest := s[|s| - 1], s[..|s| - 1];
      OutIsTheRest(rest, all - {last});
      assert all - {last} - Elements(rest) == all - Elements(s);
    }
  }

  class FreeList {
    var head: Elem?
    var itemCount: nat
    var available: nat
    /** The list, the next item to be given out first. */
    ghost var items: seq<Elem>
    /** How often null was put back, which is counted as an item. */
    ghost var nulls: nat

    ghost predicate Valid()
      reads this, items
    {
      Linked(head, items) && available == |items| + nulls && available <= itemCount
    }

    /** free_list_init threads the store. Its first element goes into an empty list as it is, so its `next` has to be
        null in the memory handed over; the links of the others do not matter. */
    constructor (store: seq<Elem>)
      requires Distinct(store) && (store != [] ==> store[0].next == null)
      modifies store
      ensures Valid() && nulls == 0 && itemCount == available == |store|
      ensures |items| == |store| && forall i :: 0 <= i < |store| ==> items[i] == store[|store| - 1 - i]
    {
      itemCount, head, available := |store|, null, 0;
      items, nulls := [], 0;
      new;
      for i := 0 to |store|
        invariant Linked(head, items) && available == |items| == i && itemCount == |store| && nulls == 0
        invariant forall j :: 0 <= j < i ==> items[j] == store[i - 1 - j]
        invariant i == 0 ==> store != [] ==> store[0].next == null
      {
        assert store[i] !in items;
        head := Prepend(head, store[i], items);
        items := [store[i]] + items;
        available := available + 1;
      }
    }

    /** free_list_get. */
    method Get() returns (item: Elem?)
      requires Valid()
      modifies this, items
      ensures Valid() && nulls == old(nulls) && itemCount == old(itemCount)
      ensures if old(items) == [] then item == null && items == []
              else item == old(items)[0] && items == old(items)[1..] && item.next == null && item.prev == null
    {
      item := null;
      if head != null && available > 0 {
        head, item := Pop(head, items);
        available, items := available - 1, items[1..];
      }
    }

    /** free_list_put: refused only when as many are counted as there were at first. */
    method Put(item: Elem?) returns (ok: bool)
      requires Valid()
      requires item != null ==> item !in items && (items == [] ==> item.next == null)
      modifies this, One(head), One(item)
      ensures Valid() && itemCount == old(itemCount)
      ensures ok <==> old(available) < itemCount
      ensures items == if ok && item != null then [item] + old(items) else old(items)
      ensures nulls == old(nulls) + if ok && item == null then 1 else 0
    {
      ok := false;
      if available < itemCount {
        head := Prepend(head, item, items);
        available := available + 1;
        if item != null {
          items := [item] + items;
        } else {
          nulls := nulls + 1;
        }
        ok := true;
      }
    }

    /** While only items of the store go in, an item that is out is refused iff null was put back as often as there are
        items out; so it never is while null was not. */
    lemma ItemsOutCanBePut(store: set<Elem>, item: Elem)
      requires Valid() && itemCount == |store|
      requires (forall e :: e in items ==> e in store) && item in store && item !in items
      ensures available < itemCount <==> nulls != |store - Elements(items)|
      ensures nulls == 0 ==> available < itemCount
    {
      FewerThan(items, store, item);
      OutIsTheRest(items, store);
    }
  }

  /** Such a list: its one item is given out, null is put in its place, and the item is refused. */
  method NullCanTakeThePlace(item: Elem) returns (list: FreeList, ok: bool)
    requires item.next == null
    modifies item
    ensures fresh(list) && list.Valid() && list.itemCount == 1
    ensures !ok && list.items == [] && list.nulls == |{item} - Elements(list.items)|
  {
    list := new FreeList([item]);
    var out := list.Get();
    ok := list.Put(null);
    assert Elements([]) == {} && {item} - {} == {item};
    ok := list.Put(out);
  }
}
