/** The list itself, on the heap: lifting an operation out of it and putting it back. */
module LinkedEntries {
  import opened EntryList

  datatype Value<I, O> = In(input: I) | Out(output: O) | NoValue

  class Node<I, O> {
    const value: Value<I, O>
    const mate: Node?<I, O>
    const id: int
    var next: Node?<I, O>
    var prev: Node?<I, O>

    constructor (value: Value<I, O>, mate: Node?<I, O>, id: int)
      ensures this.value == value && this.mate == mate && this.id == id && next == null && prev == null
    {
      this.value, this.mate, this.id, next, prev := value, mate, id, null, null;
    }
  }

  ghost predicate Distinct<I, O>(chain: seq<Node<I, O>>) {
    forall x, y {:trigger chain[x], chain[y]} :: 0 <= x < y < |chain| ==> chain[x] != chain[y]
  }

  /** Node k points at its neighbours in the chain. */
  ghost predicate PlacedAt<I, O>(chain: seq<Node<I, O>>, k: int)
    requires 0 <= k < |chain|
    reads chain
  {
    && chain[k].next == (if k + 1 < |chain| then chain[k + 1] else null)
    && chain[k].prev == (if k > 0 then chain[k - 1] else null)
  }

  /** The nodes form one doubly linked list, in this order. */
  ghost predicate Linked<I, O>(chain: seq<Node<I, O>>)
    reads chain
  {
    forall k {:trigger PlacedAt(chain, k)} :: 0 <= k < |chain| ==> PlacedAt(chain, k)
  }

  /**
   A lifted pair still points at where it was: the call in the whole list, the return in the list without the call.
   */
  ghost predicate Detached<I, O>(chain: seq<Node<I, O>>, p: nat, m: nat)
    requires 1 <= p < m < |chain|
    reads {chain[p], chain[m]}
  {
    && chain[p].prev == chain[p - 1] && chain[p].next == chain[p + 1]
    && chain[m].next == (if m + 1 < |chain| then chain[m + 1] else null)
    && chain[m].prev == (if m == p + 1 then chain[p - 1] else chain[m - 1])
  }

  /** Takes the call and its return out of the list. */
  method Lift<I, O>(entry: Node<I, O>, ghost chain: seq<Node<I, O>>, ghost p: nat, ghost m: nat)
    requires Distinct(chain) && Linked(chain)
    requires 1 <= p < m < |chain| && entry == chain[p] && entry.mate == chain[m]
    modifies chain
    ensures Linked(Without(chain, p, m)) && Detached(chain, p, m)
  {
    assert |Without(chain, p, m)| == |chain| - 2;
    hide Without;
    assert PlacedAt(chain, p) && PlacedAt(chain, m) && (m + 1 < |chain| ==> PlacedAt(chain, m + 1));
    entry.prev.next := entry.next;
    entry.next.prev := entry.prev;
    var mate := entry.mate;
    mate.prev.next := mate.next;
    if mate.next != null {
      mate.next.prev := mate.prev;
    }
    ghost var left := Without(chain, p, m);
    forall k | 0 <= k < |left|
      ensures PlacedAt(left, k)
    {
      ghost var j := Index(p, m, k);
      assert old(PlacedAt(chain, j));
      Neighbours(chain, p, m, k);
    }
  }

  /** Puts a lifted pair back exactly where it was. */
  method Unlift<I, O>(entry: Node<I, O>, ghost chain: seq<Node<I, O>>, ghost p: nat, ghost m: nat)
    requires 1 <= p < m < |chain| && entry == chain[p] && entry.mate == chain[m]
    requires Distinct(chain) && Linked(Without(chain, p, m)) && Detached(chain, p, m)
    modifies chain
    ensures Linked(chain)
  {
    assert |Without(chain, p, m)| == |chain| - 2;
    hide Without;
    var mate := entry.mate;
    mate.prev.next := mate;
    if mate.next != null {
      mate.next.prev := mate;
    }
    entry.prev.next := entry;
    entry.next.prev := entry;
    ghost var left := Without(chain, p, m);
    forall j | 0 <= j < |chain|
      ensures PlacedAt(chain, j)
    {
      if j != p && j != m {
        ghost var k := if j < p then j else if j < m then j - 1 else j - 2;
        assert old(PlacedAt(left, k));
        Neighbours(chain, p, m, k);
      }
    }
  }

  /** Which position of the whole chain is at position k of what is left. */
  function Index(p: nat, m: nat, k: int): int {
    if k < p then k else if k + 1 < m then k + 1 else k + 2
  }

  lemma Neighbours<I, O>(chain: seq<Node<I, O>>, p: nat, m: nat, k: nat)
    requires p < m < |chain| && k < |chain| - 2
    ensures var left := Without(chain, p, m);
      && |left| == |chain| - 2
      && left[k] == chain[Index(p, m, k)]
      && (k + 1 < |left| ==> left[k + 1] == chain[Index(p, m, k + 1)])
      && (k > 0 ==> left[k - 1] == chain[Index(p, m, k - 1)])
  {
  }

  // ----- Building the list -----

  /** Links a new node in front of the one at position k, or leaves it alone if there is no list. */
  method InsertBefore<I, O>(n: Node<I, O>, mark: Node?<I, O>, ghost chain: seq<Node<I, O>>, ghost k: nat)
    returns (r: Node<I, O>)
    requires Distinct(chain) && Linked(chain) && n !in chain && n.next == null && n.prev == null
    requires if mark == null then chain == [] && k == 0 else k < |chain| && mark == chain[k]
    modifies n, chain
    ensures r == n && Linked(chain[..k] + [n] + chain[k..])
  {
    ghost var chain2 := chain[..k] + [n] + chain[k..];
    assert k < |chain| ==> PlacedAt(chain, k);
    if mark != null {
      var beforeMark := mark.prev;
      mark.prev := n;
      n.next := mark;
      if beforeMark != null {
        n.prev := beforeMark;
        beforeMark.next := n;
      }
    }
    forall j | 0 <= j < |chain2|
      ensures PlacedAt(chain2, j)
    {
      if j != k {
        assert old(PlacedAt(chain, if j < k then j else j - 1));
      }
    }
    r := n;
  }

  method Length<I, O>(n: Node?<I, O>, ghost chain: seq<Node<I, O>>) returns (l: nat)
    requires Linked(chain) && n == (if chain == [] then null else chain[0])
    ensures l == |chain|
  {
    var n := n;
    l := 0;
    while n != null
      invariant l <= |chain| && n == (if l < |chain| then chain[l] else null)
      decreases |chain| - l
    {
      assert PlacedAt(chain, l);
      n := n.next;
      l := l + 1;
    }
  }

  /** The node of entry x, among the nodes of the entries from i on, knows its operation and its return. */
  ghost predicate NodeIs<I, O>(es: seq<Entry<I, O>>, nodes: seq<Node<I, O>>, i: int, x: int)
    requires -1 <= i <= x < |es| && 0 <= x && |nodes| == |es| - i
  {
    var n := nodes[x - i];
    && n.id == es[x].id
    && match es[x]
       case Call(id, input, _) =>
         n.value == In(input) && var r := Find(es, id, true); x < r < |es| && n.mate == nodes[r - i]
       case Return(_, output, _) =>
         n.value == Out(output) && n.mate == null
  }

  ghost predicate NodesOk<I, O>(es: seq<Entry<I, O>>, nodes: seq<Node<I, O>>, i: int) {
    && -1 <= i && |nodes| == |es| - i
    && (forall x {:trigger NodeIs(es, nodes, i, x)} :: 0 <= x && i <= x < |es| ==> NodeIs(es, nodes, i, x))
  }

  /** The return nodes made so far can be looked up by operation. */
  ghost predicate MatesOk<I, O>(es: seq<Entry<I, O>>, nodes: seq<Node<I, O>>, i: nat, mates: map<nat, Node<I, O>>)
    requires |nodes| == |es| - i
  {
    forall y {:trigger es[y]} :: i <= y < |es| && es[y].Return? ==> es[y].id in mates && mates[es[y].id] == nodes[y - i]
  }

  method MakeLinkedEntries<I, O>(es: seq<Entry<I, O>>) returns (root: Node?<I, O>, ghost nodes: seq<Node<I, O>>)
    requires WellFormed(es)
    ensures fresh(nodes) && Distinct(nodes) && Linked(nodes) && NodesOk(es, nodes, 0)
    ensures root == (if nodes == [] then null else nodes[0])
  {
    hide WellFormed, PlacedAt, NodeIs;
    root, nodes := null, [];
    var mates: map<nat, Node<I, O>> := map[];
    for i := |es| downto 0
      invariant fresh(nodes) && Distinct(nodes) && Linked(nodes) && NodesOk(es, nodes, i)
        && MatesOk(es, nodes, i, mates)
      invariant root == (if nodes == [] then null else nodes[0])
    {
      var elem := es[i];
      var entry;
      if elem.Return? {
        entry := new Node(Out(elem.output), null, elem.id);
        mates := mates[elem.id := entry];
        Prepended(es, nodes, i, entry, mates);
      } else {
        CallAt(es, i);
        entry := new Node(In(elem.input), mates[elem.id], elem.id);
        Prepended(es, nodes, i, entry, mates);
      }
      var r := InsertBefore(entry, root, nodes, 0);
      root := entry;
      assert nodes[..0] + [entry] + nodes[0..] == [entry] + nodes;
      nodes := [entry] + nodes;
    }
  }

  lemma Prepended<I, O>(es: seq<Entry<I, O>>, nodes: seq<Node<I, O>>, i: nat, entry: Node<I, O>,
                        mates: map<nat, Node<I, O>>)
    requires WellFormed(es) && i < |es| && NodesOk(es, nodes, i + 1)
    requires entry.id == es[i].id
    requires es[i].Call? ==> entry.value == In(es[i].input) && es[i].id in mates && entry.mate == mates[es[i].id]
    requires es[i].Return? ==>
      entry.value == Out(es[i].output) && entry.mate == null && es[i].id in mates && mates[es[i].id] == entry
    requires forall y {:trigger es[y]} :: i < y < |es| && es[y].Return? && (es[i].Call? || es[y].id != es[i].id) ==>
      es[y].id in mates && mates[es[y].id] == nodes[y - i - 1]
    ensures NodesOk(es, [entry] + nodes, i) && MatesOk(es, [entry] + nodes, i, mates)
  {
    var nodes2 := [entry] + nodes;
    assert forall k :: 0 < k < |nodes2| ==> nodes2[k] == nodes[k - 1];
    forall x | i <= x < |es|
      ensures NodeIs(es, nodes2, i, x)
    {
      if x > i {
        assert NodeIs(es, nodes, i + 1, x);
      } else if es[i].Call? {
        CallAt(es, i);
      }
    }
    forall y | i <= y < |es| && es[y].Return?
      ensures es[y].id in mates && mates[es[y].id] == nodes2[y - i]
    {
      assert y > i ==> es[i].Call? || es[y].id != es[i].id;
    }
  }

  lemma CallAt<I, O>(es: seq<Entry<I, O>>, i: nat)
    requires WellFormed(es) && i < |es| && es[i].Call?
    ensures var r := Find(es, es[i].id, true); i < r < |es| && es[r].Return? && es[r].id == es[i].id
  {
    FindIs(es, i);
    CallBeforeReturn(es, es[i].id);
  }
}
