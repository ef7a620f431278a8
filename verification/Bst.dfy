/** The binary search tree that uses an element's two links for its subtrees (src/bst.c). */
module Bsts {
  import opened Basics

  class Node<K> {
    var prev: Node?<K>
    var next: Node?<K>
    const key: K

    constructor (key: K)
      ensures this.key == key
    {
      this.key := key;
      prev, next := null, null;
    }
  }

  // ---------------------------------------------------------------- trees

  datatype Tree<K> = Leaf | At(left: Tree<K>, node: Node<K>, right: Tree<K>)

  function Nodes<K>(t: Tree<K>): set<Node<K>> {
    if t.Leaf? then {} else Nodes(t.left) + {t.node} + Nodes(t.right)
  }

  /** No node occurs twice. */
  predicate Proper<K>(t: Tree<K>) {
    t.At? ==>
      && Proper(t.left) && Proper(t.right)
      && t.node !in Nodes(t.left) && t.node !in Nodes(t.right) && Nodes(t.left) !! Nodes(t.right)
  }

  function InOrder<K>(t: Tree<K>): (s: seq<Node<K>>)
    ensures forall n :: n in s ==> n in Nodes(t)
    ensures forall n :: n in Nodes(t) ==> n in s
  {
    if t.Leaf? then [] else InOrder(t.left) + [t.node] + InOrder(t.right)
  }

  // ---------------------------------------------------------------- the comparator

  ghost predicate TotalPreorder<K(!new)>(less: (K, K) -> int) {
    && (forall a, b :: less(a, b) < 0 <==> less(b, a) > 0)
    && (forall a, b, c :: less(a, b) <= 0 && less(b, c) <= 0 ==> less(a, c) <= 0)
  }

  lemma Mixed<K(!new)>(less: (K, K) -> int, a: K, b: K, c: K)
    requires TotalPreorder(less)
    ensures less(a, b) < 0 && less(b, c) <= 0 ==> less(a, c) < 0
    ensures less(a, b) <= 0 && less(b, c) < 0 ==> less(a, c) < 0
    ensures less(a, b) == 0 && less(b, c) == 0 ==> less(a, c) == 0
  {
    assert less(c, a) <= 0 && less(a, b) <= 0 ==> less(c, b) <= 0;
    assert less(b, c) <= 0 && less(c, a) <= 0 ==> less(b, a) <= 0;
    assert less(c, b) <= 0 && less(b, a) <= 0 ==> less(c, a) <= 0;
  }

  /** Smaller elements are to the left of a node, equal and larger ones to the right. */
  ghost predicate Ordered<K>(t: Tree<K>, less: (K, K) -> int) {
    t.At? ==>
      && Ordered(t.left, less) && Ordered(t.right, less)
      && (forall n :: n in Nodes(t.left) ==> less(n.key, t.node.key) < 0)
      && (forall n :: n in Nodes(t.right) ==> less(n.key, t.node.key) >= 0)
  }

  // ---------------------------------------------------------------- inserting

  function Inserted<K>(t: Tree<K>, n: Node<K>, less: (K, K) -> int): (r: Tree<K>)
    ensures Nodes(r) == Nodes(t) + {n}
  {
    if t.Leaf? then At(Leaf, n, Leaf)
    else if less(n.key, t.node.key) < 0 then At(Inserted(t.left, n, less), t.node, t.right)
    else At(t.left, t.node, Inserted(t.right, n, less))
  }

  lemma {:induction false} InsertedIsOrdered<K(!new)>(t: Tree<K>, n: Node<K>, less: (K, K) -> int)
    requires Ordered(t, less) && Proper(t) && n !in Nodes(t)
    ensures Ordered(Inserted(t, n, less), less) && Proper(Inserted(t, n, less))
  {
    if t.At? {
      if less(n.key, t.node.key) < 0 {
        InsertedIsOrdered(t.left, n, less);
      } else {
        InsertedIsOrdered(t.right, n, less);
      }
    }
  }

  function TreeOf<K>(inserted: seq<Node<K>>, less: (K, K) -> int): (t: Tree<K>)
    ensures forall n :: n in Nodes(t) ==> n in inserted
    ensures forall n :: n in inserted ==> n in Nodes(t)
  {
    if inserted == [] then Leaf
    else Inserted(TreeOf(inserted[..|inserted| - 1], less), inserted[|inserted| - 1], less)
  }

  lemma TreeOfExtended<K>(inserted: seq<Node<K>>, n: Node<K>, less: (K, K) -> int)
    ensures TreeOf(inserted + [n], less) == Inserted(TreeOf(inserted, less), n, less)
    ensures Distinct(inserted) && n !in inserted ==> Distinct(inserted + [n])
  {
    assert (inserted + [n])[..|inserted|] == inserted;
  }

  predicate Distinct<K>(s: seq<Node<K>>) {
    forall i, j :: 0 <= i < j < |s| ==> s[i] != s[j]
  }

  lemma {:induction false} TreeOfIsOrdered<K(!new)>(inserted: seq<Node<K>>, less: (K, K) -> int)
    requires Distinct(inserted)
    ensures Ordered(TreeOf(inserted, less), less) && Proper(TreeOf(inserted, less))
    decreases |inserted|
  {
    if inserted != [] {
      var before := inserted[..|inserted| - 1];
      TreeOfIsOrdered(before, less);
      InsertedIsOrdered(TreeOf(before, less), inserted[|inserted| - 1], less);
    }
  }

  // ---------------------------------------------------------------- traversal is a stable sort

  predicate Sorted<K>(s: seq<Node<K>>, less: (K, K) -> int) {
    forall i, j :: 0 <= i < j < |s| ==> less(s[i].key, s[j].key) <= 0
  }

  function Here<K>(n: Node<K>, k: K, less: (K, K) -> int): seq<Node<K>> {
    if less(k, n.key) == 0 then [n] else []
  }

  /** The elements that compare equal to `k`, in their order. */
  function Equal<K>(s: seq<Node<K>>, k: K, less: (K, K) -> int): seq<Node<K>> {
    if s == [] then []
    else Equal(s[..|s| - 1], k, less) + Here(s[|s| - 1], k, less)
  }

  lemma {:induction false} EqualAppend<K>(s: seq<Node<K>>, t: seq<Node<K>>, k: K, less: (K, K) -> int)
    ensures Equal(s + t, k, less) == Equal(s, k, less) + Equal(t, k, less)
    decreases |t|
  {
    if t == [] {
      assert s + t == s;
    } else {
      EqualAppend(s, t[..|t| - 1], k, less);
      assert (s + t)[..|s + t| - 1] == s + t[..|t| - 1];
    }
  }

  lemma {:induction false} NoneEqual<K>(s: seq<Node<K>>, k: K, less: (K, K) -> int)
    requires forall n :: n in s ==> less(k, n.key) != 0
    ensures Equal(s, k, less) == []
    decreases |s|
  {
    if s != [] {
      NoneEqual(s[..|s| - 1], k, less);
    }
  }

  lemma EqualOfNode<K>(t: Tree<K>, k: K, less: (K, K) -> int)
    requires t.At?
    ensures Equal(InOrder(t), k, less) ==
      Equal(InOrder(t.left), k, less) + Here(t.node, k, less) + Equal(InOrder(t.right), k, less)
  {
    EqualAppend(InOrder(t.left), [t.node], k, less);
    EqualAppend(InOrder(t.left) + [t.node], InOrder(t.right), k, less);
    assert [t.node][..0] == [];
  }

  lemma SortedAround<K(!new)>(l: seq<Node<K>>, n: Node<K>, r: seq<Node<K>>, less: (K, K) -> int)
    requires TotalPreorder(less) && Sorted(l, less) && Sorted(r, less)
    requires forall i :: 0 <= i < |l| ==> less(l[i].key, n.key) < 0
    requires forall i :: 0 <= i < |r| ==> less(r[i].key, n.key) >= 0
    ensures Sorted(l + [n] + r, less)
  {
    forall i | 0 <= i < |r| ensures less(n.key, r[i].key) <= 0 {
      assert less(n.key, r[i].key) > 0 <==> less(r[i].key, n.key) < 0;
    }
    forall i, j | 0 <= i < |l| && 0 <= j < |r| ensures less(l[i].key, r[j].key) <= 0 {
      Mixed(less, l[i].key, n.key, r[j].key);
    }
    var s := l + [n] + r;
    assert forall i :: |l| < i < |s| ==> s[i] == r[i - |l| - 1];
  }

  lemma {:induction false} InOrderIsSorted<K(!new)>(t: Tree<K>, less: (K, K) -> int)
    requires Ordered(t, less) && TotalPreorder(less)
    ensures Sorted(InOrder(t), less)
  {
    if t.At? {
      InOrderIsSorted(t.left, less);
      InOrderIsSorted(t.right, less);
      forall i | 0 <= i < |InOrder(t.left)| ensures less(InOrder(t.left)[i].key, t.node.key) < 0 {
        assert InOrder(t.left)[i] in Nodes(t.left);
      }
      forall i | 0 <= i < |InOrder(t.right)| ensures less(InOrder(t.right)[i].key, t.node.key) >= 0 {
        assert InOrder(t.right)[i] in Nodes(t.right);
      }
      SortedAround(InOrder(t.left), t.node, InOrder(t.right), less);
    }
  }

  /** What compares below a node is not equal to anything on its right. */
  lemma NoneEqualRight<K(!new)>(t: Tree<K>, k: K, less: (K, K) -> int)
    requires t.At? && Ordered(t, less) && TotalPreorder(less) && less(k, t.node.key) < 0
    ensures Equal(InOrder(t.right), k, less) == []
  {
    forall m | m in InOrder(t.right) ensures less(k, m.key) != 0 {
      assert less(t.node.key, m.key) > 0 <==> less(m.key, t.node.key) < 0;
      Mixed(less, k, t.node.key, m.key);
    }
    NoneEqual(InOrder(t.right), k, less);
  }

  lemma LastOverNone<T>(l: seq<T>, h: seq<T>, x: seq<T>, r: seq<T>)
    requires h == [] || (x == [] && r == [])
    ensures (l + h) + x + r == l + x + r + h
  {
    if h == [] {
      assert l + h == l;
      assert l + x + r + h == l + x + r;
    } else {
      assert (l + h) + x == l + h;
      assert l + x == l;
    }
  }

  lemma BehindLeft<K(!new)>(t: Tree<K>, n: Node<K>, k: K, less: (K, K) -> int)
    requires t.At? && Ordered(t, less) && TotalPreorder(less) && less(n.key, t.node.key) < 0
    ensures var l, r := Equal(InOrder(t.left), k, less), Equal(InOrder(t.right), k, less);
      (l + Here(n, k, less)) + Here(t.node, k, less) + r == l + Here(t.node, k, less) + r + Here(n, k, less)
  {
    if less(k, n.key) == 0 {
      Mixed(less, k, n.key, t.node.key);
      NoneEqualRight(t, k, less);
    }
    LastOverNone(Equal(InOrder(t.left), k, less), Here(n, k, less), Here(t.node, k, less),
                 Equal(InOrder(t.right), k, less));
    hide Ordered, TotalPreorder, Equal, InOrder;
  }

  /** An element goes behind all that are equal to it. */
  lemma {:induction false} InsertedBehindEqual<K(!new)>(t: Tree<K>, n: Node<K>, k: K, less: (K, K) -> int)
    requires Ordered(t, less) && TotalPreorder(less)
    ensures Equal(InOrder(Inserted(t, n, less)), k, less) == Equal(InOrder(t), k, less) + Here(n, k, less)
  {
    EqualOfNode(Inserted(t, n, less), k, less);
    if t.At? {
      EqualOfNode(t, k, less);
      if less(n.key, t.node.key) < 0 {
        InsertedBehindEqual(t.left, n, k, less);
        BehindLeft(t, n, k, less);
      } else {
        InsertedBehindEqual(t.right, n, k, less);
        Associates(Equal(InOrder(t.left), k, less) + Here(t.node, k, less), Equal(InOrder(t.right), k, less),
                   Here(n, k, less));
      }
    }
  }

  /** The traversal after inserting any elements is their stable sort: sorted, equal ones in the order of insertion. */
  lemma {:induction false} TraversalIsStableSort<K(!new)>(inserted: seq<Node<K>>, less: (K, K) -> int)
    requires Distinct(inserted) && TotalPreorder(less)
    ensures Sorted(InOrder(TreeOf(inserted, less)), less)
    ensures forall k :: Equal(InOrder(TreeOf(inserted, less)), k, less) == Equal(inserted, k, less)
    decreases |inserted|
  {
    TreeOfIsOrdered(inserted, less);
    InOrderIsSorted(TreeOf(inserted, less), less);
    if inserted != [] {
      var before := inserted[..|inserted| - 1];
      TraversalIsStableSort(before, less);
      TreeOfIsOrdered(before, less);
      forall k ensures Equal(InOrder(TreeOf(inserted, less)), k, less) == Equal(inserted, k, less) {
        InsertedBehindEqual(TreeOf(before, less), inserted[|inserted| - 1], k, less);
      }
    }
  }

  // ---------------------------------------------------------------- searching

  /** bst_search_inner. */
  function Found<K>(t: Tree<K>, k: K, less: (K, K) -> int): Node?<K> {
    if t.Leaf? then null
    else if less(k, t.node.key) == 0 then t.node
    else if less(k, t.node.key) < 0 then Found(t.left, k, less)
    else Found(t.right, k, less)
  }

  function First<K>(s: seq<Node<K>>): Node?<K> {
    if s == [] then null else s[0]
  }

  lemma {:induction false} FoundIsFirstEqual<K(!new)>(t: Tree<K>, k: K, less: (K, K) -> int)
    requires Ordered(t, less) && TotalPreorder(less)
    ensures Found(t, k, less) == First(Equal(InOrder(t), k, less))
  {
    if t.At? {
      EqualOfNode(t, k, less);
      if less(k, t.node.key) < 0 {
        FoundIsFirstEqual(t.left, k, less);
        NoneEqualRight(t, k, less);
      } else {
        FoundIsFirstEqual(t.right, k, less);
        forall m | m in InOrder(t.left) ensures less(k, m.key) != 0 {
          Mixed(less, m.key, t.node.key, k);
        }
        NoneEqual(InOrder(t.left), k, less);
      }
    }
  }

  /** Searching finds the equal element that was inserted first, and nothing iff none was. */
  lemma SearchFindsEarliest<K(!new)>(inserted: seq<Node<K>>, k: K, less: (K, K) -> int)
    requires Distinct(inserted) && TotalPreorder(less)
    ensures Found(TreeOf(inserted, less), k, less) == First(Equal(inserted, k, less))
  {
    TraversalIsStableSort(inserted, less);
    TreeOfIsOrdered(inserted, less);
    FoundIsFirstEqual(TreeOf(inserted, less), k, less);
  }

  // ---------------------------------------------------------------- the tree in memory

  datatype Links<K> = Links(prev: Node?<K>, next: Node?<K>)

  ghost function LinksOf<K>(s: set<Node<K>>): map<Node<K>, Links<K>>
    reads s
  {
    map n | n in s :: Links(n.prev, n.next)
  }

  /** The tree `t` hangs on `root`. */
  ghost predicate Shape<K>(root: Node?<K>, t: Tree<K>, links: map<Node<K>, Links<K>>) {
    match t
    case Leaf => root == null
    case At(l, n, r) => root == n && n in links && Shape(links[n].prev, l, links) && Shape(links[n].next, r, links)
  }

  lemma {:induction false} ShapeKept<K>(
      root: Node?<K>, t: Tree<K>, links: map<Node<K>, Links<K>>, links': map<Node<K>, Links<K>>)
    requires Shape(root, t, links) && forall n :: n in Nodes(t) ==> n in links && n in links' && links[n] == links'[n]
    ensures Shape(root, t, links')
  {
    if t.At? {
      ShapeKept(links[t.node].prev, t.left, links, links');
      ShapeKept(links[t.node].next, t.right, links, links');
    }
  }

  /** The node below which an element with key `k` is inserted. */
  function Parent<K>(t: Tree<K>, k: K, less: (K, K) -> int): (p: Node<K>)
    requires t.At?
    ensures p in Nodes(t)
  {
    var below := if less(k, t.node.key) < 0 then t.left else t.right;
    if below.Leaf? then t.node else Parent(below, k, less)
  }

  /** Setting one link of that node, by one more comparison, inserts the element. */
  lemma {:induction false} LinkingInserts<K>(root: Node?<K>, t: Tree<K>, n: Node<K>, less: (K, K) -> int,
      links: map<Node<K>, Links<K>>, links': map<Node<K>, Links<K>>)
    requires t.At? && Proper(t) && n !in Nodes(t) && Shape(root, t, links)
    requires forall m :: m in Nodes(t) ==> m in links && m in links'
    requires n in links' && links'[n] == Links(null, null)
    requires
      var p := Parent(t, n.key, less);
      && links'[p] == (if less(n.key, p.key) < 0 then links[p].(prev := n) else links[p].(next := n))
      && forall m :: m in Nodes(t) && m != p ==> links'[m] == links[m]
    ensures Shape(root, Inserted(t, n, less), links')
  {
    var node := t.node;
    if less(n.key, node.key) < 0 {
      if t.left.At? {
        LinkingInserts(links[node].prev, t.left, n, less, links, links');
      }
      ShapeKept(links[node].next, t.right, links, links');
    } else {
      if t.right.At? {
        LinkingInserts(links[node].next, t.right, n, less, links, links');
      }
      ShapeKept(links[node].prev, t.left, links, links');
    }
  }

  class Bst<K(!new)> {
    const less: (K, K) -> int
    var root: Node?<K>
    ghost var inserted: seq<Node<K>>

    ghost function Tree(): Tree<K>
      reads this
    {
      TreeOf(inserted, less)
    }

    ghost predicate Valid()
      reads this, inserted
    {
      && TotalPreorder(less)
      && Distinct(inserted)
      && Shape(root, Tree(), LinksOf(Nodes(Tree())))
    }

    /** bst_init. */
    constructor (less: (K, K) -> int)
      requires TotalPreorder(less)
      ensures Valid() && this.less == less && inserted == []
    {
      this.less := less;
      root, inserted := null, [];
    }

    /** The loop of bst_insert. */
    method Descend(k: K, ghost t: Tree<K>, ghost all: set<Node<K>>) returns (parent: Node<K>)
      requires t.At? && Nodes(t) <= all && Shape(root, t, LinksOf(all))
      ensures parent == Parent(t, k, less)
    {
      var current := root;
      parent := current;
      ghost var sub := t;
      while current != null
        invariant Nodes(sub) <= all && Shape(current, sub, LinksOf(all))
        invariant if current != null then Parent(sub, k, less) == Parent(t, k, less) else parent == Parent(t, k, less)
        decreases sub
      {
        parent := current;
        if less(k, current.key) < 0 {
          current, sub := current.prev, sub.left;
        } else {
          current, sub := current.next, sub.right;
        }
      }
    }

    /** The last step of bst_insert. */
    method LinkBelow(parent: Node<K>, elem: Node<K>, ghost t: Tree<K>)
      requires t.At? && Proper(t) && elem !in Nodes(t) && Shape(root, t, LinksOf(Nodes(t)))
      requires elem.prev == null && elem.next == null && parent == Parent(t, elem.key, less)
      modifies parent
      ensures Shape(root, Inserted(t, elem, less), LinksOf(Nodes(t) + {elem}))
    {
      ghost var links := LinksOf(Nodes(t));
      if less(elem.key, parent.key) < 0 {
        parent.prev := elem;
      } else {
        parent.next := elem;
      }
      LinkingInserts(root, t, elem, less, links, LinksOf(Nodes(t) + {elem}));
    }

    /** bst_insert, seen from the tree. */
    method InsertInto(elem: Node<K>, ghost t: Tree<K>)
      requires Proper(t) && elem !in Nodes(t) && Shape(root, t, LinksOf(Nodes(t)))
      modifies this`root, elem, Nodes(t)
      ensures Shape(root, Inserted(t, elem, less), LinksOf(Nodes(t) + {elem}))
    {
      ghost var links := LinksOf(Nodes(t));
      elem.prev, elem.next := null, null;
      assert LinksOf(Nodes(t)) == links;
      if root == null {
        root := elem;
      } else {
        var parent := Descend(elem.key, t, Nodes(t));
        LinkBelow(parent, elem, t);
      }
    }

    /** bst_insert, seen from the elements inserted before. */
    method InsertAfter(elem: Node<K>, ghost was: seq<Node<K>>)
      requires Distinct(was) && elem !in was && Shape(root, TreeOf(was, less), LinksOf(Nodes(TreeOf(was, less))))
      modifies this`root, elem, was
      ensures Shape(root, TreeOf(was + [elem], less), LinksOf(Nodes(TreeOf(was + [elem], less))))
    {
      TreeOfIsOrdered(was, less);
      TreeOfExtended(was, elem, less);
      InsertInto(elem, TreeOf(was, less));
    }

    method Insert(elem: Node<K>)
      requires Valid() && elem !in inserted
      modifies this, elem, inserted
      ensures Valid() && inserted == old(inserted) + [elem]
    {
      ghost var was := inserted;
      TreeOfExtended(was, elem, less);
      hide TreeOf, Shape, Distinct, LinksOf, TotalPreorder;
      inserted := was + [elem];
      InsertAfter(elem, was);
    }

    method SearchInner(root: Node?<K>, k: K, ghost t: Tree<K>, ghost all: set<Node<K>>) returns (r: Node?<K>)
      requires Nodes(t) <= all && Shape(root, t, LinksOf(all))
      ensures r == Found(t, k, less)
      decreases t
    {
      if root == null || less(k, root.key) == 0 {
        r := root;
      } else if less(k, root.key) < 0 {
        r := SearchInner(root.prev, k, t.left, all);
      } else {
        r := SearchInner(root.next, k, t.right, all);
      }
    }

    /** bst_search. */
    method Search(key: Node<K>) returns (r: Node?<K>)
      requires Valid()
      ensures r == First(Equal(inserted, key.key, less))
    {
      r := SearchInner(root, key.key, Tree(), Nodes(Tree()));
      SearchFindsEarliest(inserted, key.key, less);
    }

    method TraverseInner(root: Node?<K>, ghost t: Tree<K>, ghost all: set<Node<K>>) returns (visited: seq<Node<K>>)
      requires Nodes(t) <= all && Shape(root, t, LinksOf(all))
      ensures visited == InOrder(t)
      decreases t
    {
      visited := [];
      if root != null {
        var before := TraverseInner(root.prev, t.left, all);
        var after := TraverseInner(root.next, t.right, all);
        visited := before + [root] + after;
      }
    }

    /** bst_traverse: the elements in the order in which they are visited. */
    method Traverse() returns (visited: seq<Node<K>>)
      requires Valid()
      ensures Sorted(visited, less)
      ensures forall k :: Equal(visited, k, less) == Equal(inserted, k, less)
    {
      visited := TraverseInner(root, Tree(), Nodes(Tree()));
      TraversalIsStableSort(inserted, less);
    }
  }
}
