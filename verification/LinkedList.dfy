/** The circular doubly linked list with a sentinel, its raw-pointer iterators and its allocator,
    refined to a sequence of nodes. */
module LinkedLists {

  class Node {
    var next: Node?
    var prev: Node?
    var data: int

    constructor (data: int)
      ensures next == null && prev == null && this.data == data
    {
      next, prev, this.data := null, null, data;
    }
  }

  /** The caller's allocator: request `k` succeeds exactly when `grants(k)`.  `live` are the blocks
      handed out and not yet released; only a live block may be released. */
  class Allocator {
    const grants: nat -> bool
    var requests: nat
    ghost var live: set<object>

    constructor (grants: nat -> bool)
      ensures this.grants == grants && requests == 0 && live == {}
    {
      this.grants, requests, live := grants, 0, {};
    }

    /** Decides about the next request; the block of a granted one is registered by the caller. */
    method Request() returns (ok: bool)
      modifies this`requests
      ensures ok == grants(old(requests)) && requests == old(requests) + 1
    {
      ok := grants(requests);
      requests := requests + 1;
    }

    /** llCreateNode */
    method CreateNode(data: int) returns (node: Node?)
      modifies this
      ensures node == null <==> !grants(old(requests))
      ensures requests == old(requests) + 1
      ensures live == old(live) + if node == null then {} else {node}
      ensures node != null ==> fresh(node) && node.data == data
    {
      var ok := Request();
      if !ok {
        return null;
      }
      node := new Node(data);
      Register(node);
    }

    ghost method Register(block: object)
      requires block !in live
      modifies this`live
      ensures live == old(live) + {block}
    {
      live := live + {block};
    }

    method Free(block: object)
      requires block in live
      modifies this`live
      ensures live == old(live) - {block}
    {
      live := live - {block};
    }
  }

  ghost function BlocksOf(ns: seq<object>): set<object> { set n | n in ns }

  /** Neighbours point at each other. */
  ghost predicate Circular(ring: seq<Node>)
    reads ring
  {
    forall i :: 0 <= i < |ring| - 1 ==> ring[i].next == ring[i + 1] && ring[i + 1].prev == ring[i]
  }

  ghost predicate Distinct(ns: seq<Node>) { forall i, j :: 0 <= i < j < |ns| ==> ns[i] != ns[j] }

  lemma InsertDistinct(ns: seq<Node>, k: nat, n: Node)
    requires Distinct(ns) && k <= |ns| && n !in ns
    ensures Distinct(ns[..k] + [n] + ns[k..])
    ensures forall m :: m in ns[..k] + [n] + ns[k..] ==> m == n || m in ns
  {}

  lemma JoinCircular(before: seq<Node>, node: Node, after: seq<Node>)
    requires before != [] && after != [] && Circular(before) && Circular(after)
    requires before[|before| - 1].next == node && node.prev == before[|before| - 1]
    requires node.next == after[0] && after[0].prev == node
    ensures Circular(before + [node] + after)
  {
    var ring := before + [node] + after;
    forall i | 0 <= i < |ring| - 1
      ensures ring[i].next == ring[i + 1] && ring[i + 1].prev == ring[i]
    {
      if i > |before| {
        assert ring[i] == after[i - |before| - 1] && ring[i + 1] == after[i - |before|];
      }
    }
  }

  class LinkedList {
    const sent: Node
    const allocator: Allocator
    ghost var nodes: seq<Node>

    /** The nodes on the way round from the sentinel to the sentinel. */
    ghost function Ring(): (r: seq<Node>)
      reads this
      ensures |r| == |nodes| + 2
    {
      [sent] + nodes + [sent]
    }

    /** The node an iterator at position `k` points to; the end is at position `|nodes|`. */
    ghost function At(k: nat): Node
      requires k <= |nodes|
      reads this
    {
      if k < |nodes| then nodes[k] else sent
    }

    ghost predicate Valid()
      reads this, sent, nodes, allocator
    {
      && sent !in nodes
      && Distinct(nodes)
      && Circular(Ring())
      && this in allocator.live
      && (forall n :: n in nodes ==> n in allocator.live)
    }

    /** The blocks this list holds. */
    ghost function Blocks(): set<object>
      reads this
    {
      {this as object} + BlocksOf(nodes)
    }

    ghost function Contents(): seq<int>
      reads this, nodes
    {
      seq(|nodes|, i requires 0 <= i < |nodes| reads this, nodes => nodes[i].data)
    }

    /** A node that may be read: the sentinel is part of the list's own block. */
    ghost predicate Readable(n: Node)
      reads this, allocator
    {
      if n == sent then this in allocator.live else n in allocator.live
    }

    constructor (allocator: Allocator)
      ensures this.allocator == allocator && fresh(sent) && nodes == []
      ensures sent.next == sent && sent.prev == sent
    {
      this.allocator := allocator;
      sent := new Node(0);
      nodes := [];
      new;
      Init();
    }

    /** llInit */
    method Init()
      modifies this`nodes, sent`next, sent`prev
      ensures nodes == [] && sent.next == sent && sent.prev == sent
    {
      sent.next := sent;
      sent.prev := sent;
      nodes := [];
    }

    /** llCreateWithAllocator */
    static method Create(allocator: Allocator) returns (list: LinkedList?)
      modifies allocator
      ensures list == null <==> !allocator.grants(old(allocator.requests))
      ensures list == null ==> allocator.live == old(allocator.live)
      ensures list != null ==>
                && fresh(list) && fresh(list.sent) && list.allocator == allocator && list.Valid() && list.nodes == []
                && allocator.live == old(allocator.live) + list.Blocks()
    {
      var ok := allocator.Request();
      if !ok {
        return null;
      }
      list := new LinkedList(allocator);
      allocator.Register(list);
    }

    /** Reading a link needs a block that has not been released. */
    method LoadNext(it: Node) returns (r: Node?)
      requires Readable(it)
      ensures r == it.next
    {
      r := it.next;
    }

    method LoadPrev(it: Node) returns (r: Node?)
      requires Readable(it)
      ensures r == it.prev
    {
      r := it.prev;
    }

    method Begin() returns (it: Node)
      requires Valid()
      ensures it == At(0)
    {
      assert Ring()[0].next == Ring()[1];
      it := LoadNext(sent);
    }

    method End() returns (it: Node)
      requires Valid()
      ensures it == At(|nodes|)
    {
      it := sent;
    }

    /** llIterNext: the end's successor is the beginning. */
    method IterNext(it: Node, ghost k: nat) returns (r: Node)
      requires Valid() && k <= |nodes| && it == At(k)
      ensures r == At(if k == |nodes| then 0 else k + 1)
    {
      ghost var i := if k == |nodes| then 0 else k + 1;
      assert Ring()[i].next == Ring()[i + 1];
      r := LoadNext(it);
    }

    method IterPrev(it: Node, ghost k: nat) returns (r: Node)
      requires Valid() && k <= |nodes| && it == At(k)
      ensures r == if k == 0 then sent else At(k - 1)
    {
      assert Ring()[k + 1].prev == Ring()[k];
      r := LoadPrev(it);
    }

    method Front() returns (n: Node)
      requires Valid() && nodes != []
      ensures n == nodes[0] && n.data == Contents()[0]
    {
      n := Begin();
    }

    method Back() returns (n: Node)
      requires Valid() && nodes != []
      ensures n == nodes[|nodes| - 1] && n.data == Contents()[|nodes| - 1]
    {
      n := End();
      n := IterPrev(n, |nodes|);
    }

    method IsEmpty() returns (b: bool)
      requires Valid()
      ensures b <==> Contents() == []
    {
      var first := Begin();
      b := first == sent;
    }

    method Size() returns (sz: nat)
      requires Valid()
      ensures sz == |Contents()|
    {
      sz := 0;
      var it := Begin();
      while it != sent
        invariant sz <= |nodes| && it == At(sz)
        decreases |nodes| - sz
      {
        it := IterNext(it, sz);
        sz := sz + 1;
      }
    }

    /** llInsert before the iterator `it`, which stands at position `k`.  A failed allocation
        changes nothing but the request count; otherwise exactly one block is taken, the new node
        stands at `k`, and every iterator to an element from `k` on is now one further. */
    method Insert(it: Node, ghost k: nat, data: int) returns (r: Node?)
      requires Valid() && k <= |nodes| && it == At(k)
      modifies this`nodes, allocator, sent, nodes
      ensures Valid()
      ensures r == null <==> !allocator.grants(old(allocator.requests))
      ensures allocator.requests == old(allocator.requests) + 1
      ensures r == null ==>
                && nodes == old(nodes) && allocator.live == old(allocator.live)
                && Contents() == old(Contents())
      ensures r != null ==>
                && fresh(r)
                && nodes == old(nodes)[..k] + [r] + old(nodes)[k..]
                && Contents() == old(Contents())[..k] + [data] + old(Contents())[k..]
                && allocator.live == old(allocator.live) + {r}
    {
      ghost var ring := Ring();
      r := allocator.CreateNode(data);
      assert forall i :: 0 <= i < |ring| ==> ring[i].next == old(ring[i].next) && ring[i].prev == old(ring[i].prev);
      if r != null {
        Link(r, it, k);
      }
    }

    /** The pointer surgery of llInsert. */
    method Link(node: Node, it: Node, ghost k: nat)
      requires Valid() && k <= |nodes| && it == At(k)
      requires node != sent && node !in nodes && node in allocator.live
      modifies this`nodes, sent`next, sent`prev, nodes, node`next, node`prev
      ensures Valid()
      ensures nodes == old(nodes)[..k] + [node] + old(nodes)[k..]
      ensures forall n :: n in nodes ==> n.data == old(n.data)
    {
      ghost var ring := Ring();
      assert ring[k + 1] == it && ring[..|ring| - 1] == [sent] + nodes;
      Splice(node, it, ring[k], ring, k);
      InsertDistinct(nodes, k, node);
      nodes := nodes[..k] + [node] + nodes[k..];
      assert ring[..k + 1] == [sent] + old(nodes)[..k] && ring[k + 1..] == old(nodes)[k..] + [sent];
      assert Ring() == ring[..k + 1] + [node] + ring[k + 1..];
      JoinCircular(ring[..k + 1], node, ring[k + 1..]);
    }

    /** The four assignments: they cut the ring before `it` and tie both ends to `node`. */
    static method Splice(node: Node, it: Node, ghost before: Node, ghost ring: seq<Node>, ghost k: nat)
      requires k + 1 < |ring| && it == ring[k + 1] && before == ring[k] && Circular(ring) && node !in ring
      requires Distinct(ring[..|ring| - 1]) && ring[|ring| - 1] == ring[0]
      modifies it`prev, before`next, node`next, node`prev
      ensures Circular(ring[..k + 1]) && Circular(ring[k + 1..])
      ensures ring[k].next == node && node.prev == ring[k] && node.next == it && it.prev == node
    {
      assert it.prev == before;
      var next := it;
      var prev := next.prev;
      node.next, node.prev := next, prev;
      next.prev := node;
      prev.next := node;
      ghost var front, back := ring[..k + 1], ring[k + 1..];
      forall i | 0 <= i < |front| - 1
        ensures front[i].next == front[i + 1] && front[i + 1].prev == front[i]
      {
        assert front[i] == ring[i] && front[i + 1] == ring[i + 1];
      }
      forall i | 0 <= i < |back| - 1
        ensures back[i].next == back[i + 1] && back[i + 1].prev == back[i]
      {
        assert back[i] == ring[k + 1 + i] && back[i + 1] == ring[k + 2 + i];
      }
    }

    /** llErase of the element at position `k`: its block alone is released, and the result stands
        at `k` of the shorter list, as does every iterator to a later element one lower. */
    method Erase(it: Node, ghost k: nat) returns (r: Node)
      requires Valid() && k < |nodes| && it == nodes[k]
      modifies this`nodes, allocator`live, sent`next, sent`prev, nodes
      ensures Valid()
      ensures nodes == old(nodes)[..k] + old(nodes)[k + 1..] && r == At(k)
      ensures Contents() == old(Contents())[..k] + old(Contents())[k + 1..]
      ensures allocator.live == old(allocator.live) - {it}
    {
      r := Unlink(it, k);
      ghost var ring := Ring();
      label linked:
      allocator.Free(it);
      assert forall i :: 0 <= i < |ring| ==>
          ring[i].next == old@linked(ring[i].next) && ring[i].prev == old@linked(ring[i].prev);
    }

    /** The pointer surgery of llErase. */
    method Unlink(it: Node, ghost k: nat) returns (r: Node)
      requires Valid() && k < |nodes| && it == nodes[k]
      modifies this`nodes, sent`next, sent`prev, nodes
      ensures Valid() && it !in nodes
      ensures nodes == old(nodes)[..k] + old(nodes)[k + 1..] && r == At(k)
      ensures forall n :: n in nodes ==> n.data == old(n.data)
    {
      ghost var ring := Ring();
      assert ring[k + 1] == it && ring[k + 1].next == ring[k + 2] && ring[k + 1].prev == ring[k];
      var next := it.next;
      var prev := it.prev;
      prev.next := next;
      next.prev := prev;
      nodes := nodes[..k] + nodes[k + 1..];
      ghost var ring' := Ring();
      assert ring' == ring[..k + 1] + ring[k + 2..];
      forall i | 0 <= i < |ring'| - 1
        ensures ring'[i].next == ring'[i + 1] && ring'[i + 1].prev == ring'[i]
      {
        if i < k {
          assert ring'[i] == ring[i] && ring'[i + 1] == ring[i + 1];
        } else if i > k {
          assert ring'[i] == ring[i + 1] && ring'[i + 1] == ring[i + 2];
        }
      }
      r := next;
    }

    method Append(data: int) returns (r: Node?)
      requires Valid()
      modifies this`nodes, allocator, sent, nodes
      ensures Valid()
      ensures r == null <==> !allocator.grants(old(allocator.requests))
      ensures Contents() == old(Contents()) + if r == null then [] else [data]
      ensures allocator.live == old(allocator.live) + if r == null then {} else {r}
    {
      var end := End();
      r := Insert(end, |nodes|, data);
    }

    method Prepend(data: int) returns (r: Node?)
      requires Valid()
      modifies this`nodes, allocator, sent, nodes
      ensures Valid()
      ensures r == null <==> !allocator.grants(old(allocator.requests))
      ensures Contents() == (if r == null then [] else [data]) + old(Contents())
      ensures allocator.live == old(allocator.live) + if r == null then {} else {r}
    {
      var begin := Begin();
      r := Insert(begin, 0, data);
    }

    method PopBack()
      requires Valid() && nodes != []
      modifies this`nodes, allocator`live, sent`next, sent`prev, nodes
      ensures Valid()
      ensures Contents() == old(Contents())[..|old(nodes)| - 1]
      ensures allocator.live == old(allocator.live) - {old(nodes)[|old(nodes)| - 1]}
    {
      var it := Back();
      var _ := Erase(it, |nodes| - 1);
    }

    method PopFront()
      requires Valid() && nodes != []
      modifies this`nodes, allocator`live, sent`next, sent`prev, nodes
      ensures Valid()
      ensures Contents() == old(Contents())[1..]
      ensures allocator.live == old(allocator.live) - {old(nodes)[0]}
    {
      var it := Begin();
      var _ := Erase(it, 0);
    }

    /** llDestroyNodes: walks the list, reading each node before it is released and never after;
        every node is released exactly once. */
    method DestroyNodes()
      requires Valid()
      modifies allocator`live
      ensures allocator.live == old(allocator.live) - BlocksOf(nodes)
    {
      ghost var ring := Ring();
      assert forall i :: 0 <= i < |ring| - 1 ==> ring[i].next == ring[i + 1];
      var it := Begin();
      ghost var i := 0;
      while it != sent
        invariant i <= |nodes| && it == At(i) && this in allocator.live
        invariant forall j :: 0 <= j < |ring| - 1 ==> ring[j].next == ring[j + 1]
        invariant forall j :: i <= j < |nodes| ==> nodes[j] in allocator.live
        invariant allocator.live == old(allocator.live) - BlocksOf(nodes[..i])
        decreases |nodes| - i
      {
        assert ring[i + 1] == it && ring[i + 1].next == ring[i + 2];
        var next := LoadNext(it);
        allocator.Free(it);
        assert nodes[..i + 1] == nodes[..i] + [it];
        assert this as object != it;
        it := next;
        i := i + 1;
      }
      assert nodes[..i] == nodes;
    }

    method Clear()
      requires Valid()
      modifies this`nodes, sent`next, sent`prev, allocator`live
      ensures Valid() && Contents() == []
      ensures allocator.live == old(allocator.live) - (old(Blocks()) - {this})
    {
      DestroyNodes();
      Init();
    }

    /** llDestroy gives back every block the list holds. */
    static method Destroy(list: LinkedList?)
      requires list != null ==> list.Valid()
      modifies if list == null then {} else {list.allocator}
      ensures list != null ==> list.allocator.live == old(list.allocator.live) - old(list.Blocks())
    {
      if list != null {
        list.DestroyNodes();
        list.allocator.Free(list);
      }
    }
  }

  /** An operation at a position; one whose position does not exist is skipped. */
  datatype Op = InsertAt(k: nat, data: int) | EraseAt(k: nat) | ClearAll

  /** What an operation does to a plain sequence, and the number of requests made after it. */
  ghost function InterpretOne(c: seq<int>, requests: nat, grants: nat -> bool, op: Op): (seq<int>, nat) {
    match op
    case InsertAt(k, data) =>
      if k > |c| then (c, requests)
      else (if grants(requests) then c[..k] + [data] + c[k..] else c, requests + 1)
    case EraseAt(k) => (if k < |c| then c[..k] + c[k + 1..] else c, requests)
    case ClearAll => ([], requests)
  }

  ghost function Interpret(c: seq<int>, requests: nat, grants: nat -> bool, ops: seq<Op>): seq<int>
    decreases |ops|
  {
    if ops == [] then c
    else
      var (c', requests') := InterpretOne(c, requests, grants, ops[0]);
      Interpret(c', requests', grants, ops[1..])
  }

  /** Steps an iterator from the beginning to position `k`. */
  method Advance(list: LinkedList, k: nat) returns (it: Node)
    requires list.Valid() && k <= |list.nodes|
    ensures it == list.At(k)
  {
    it := list.Begin();
    for i := 0 to k
      invariant it == list.At(i)
    {
      it := list.IterNext(it, i);
    }
  }

  method InsertOne(list: LinkedList, k: nat, data: int)
    requires list.Valid() && k <= |list.nodes|
    modifies list`nodes, list.allocator, list.sent, list.nodes
    ensures list.Valid() && fresh(set n | n in list.nodes && n !in old(list.nodes))
    ensures var (c, requests) :=
              InterpretOne(old(list.Contents()), old(list.allocator.requests), list.allocator.grants,
                           InsertAt(k, data));
            list.Contents() == c && list.allocator.requests == requests
    ensures list.allocator.live - list.Blocks() == old(list.allocator.live - list.Blocks())
  {
    var it := Advance(list, k);
    var _ := list.Insert(it, k, data);
  }

  method EraseOne(list: LinkedList, k: nat)
    requires list.Valid() && k < |list.nodes|
    modifies list`nodes, list.allocator, list.sent, list.nodes
    ensures list.Valid() && fresh(set n | n in list.nodes && n !in old(list.nodes))
    ensures var (c, requests) :=
              InterpretOne(old(list.Contents()), old(list.allocator.requests), list.allocator.grants, EraseAt(k));
            list.Contents() == c && list.allocator.requests == requests
    ensures list.allocator.live - list.Blocks() == old(list.allocator.live - list.Blocks())
  {
    var it := Advance(list, k);
    var _ := list.Erase(it, k);
  }

  method ApplyOne(list: LinkedList, op: Op)
    requires list.Valid()
    modifies list`nodes, list.allocator, list.sent, list.nodes
    ensures list.Valid() && fresh(set n | n in list.nodes && n !in old(list.nodes))
    ensures var (c, requests) :=
              InterpretOne(old(list.Contents()), old(list.allocator.requests), list.allocator.grants, op);
            list.Contents() == c && list.allocator.requests == requests
    ensures list.allocator.live - list.Blocks() == old(list.allocator.live - list.Blocks())
  {
    var n := list.Size();
    match op {
      case InsertAt(k, data) => if k <= n { InsertOne(list, k, data); }
      case EraseAt(k) => if k < n { EraseOne(list, k); }
      case ClearAll => list.Clear();
    }
  }

  /** Any sequence of operations on the linked nodes, failed allocations included, leaves what the
      same operations on a sequence leave, and never takes or gives back a block but its own. */
  method Apply(list: LinkedList, ops: seq<Op>)
    requires list.Valid()
    modifies list`nodes, list.allocator, list.sent, list.nodes
    ensures list.Valid()
    ensures list.Contents()
         == Interpret(old(list.Contents()), old(list.allocator.requests), list.allocator.grants, ops)
    ensures list.allocator.live - list.Blocks() == old(list.allocator.live - list.Blocks())
    decreases |ops|
  {
    if ops != [] {
      ApplyOne(list, ops[0]);
      Apply(list, ops[1..]);
    }
  }

  /** Until its destruction a list holds one block for itself and one for each element. */
  lemma BlockCount(list: LinkedList)
    requires list.Valid()
    ensures list.Blocks() <= list.allocator.live && |list.Blocks()| == 1 + |list.nodes|
  {
    DistinctCount(list.nodes);
    var ns := BlocksOf(list.nodes);
    assert list as object !in ns;
    assert list.Blocks() == {list as object} + ns;
  }

  lemma {:induction false} DistinctCount(ns: seq<Node>)
    requires Distinct(ns)
    ensures |BlocksOf(ns)| == |ns|
  {
    if ns == [] {
      assert BlocksOf(ns) == {};
    } else {
      var init, last := ns[..|ns| - 1], ns[|ns| - 1];
      DistinctCount(init);
      assert ns == init + [last];
      assert BlocksOf(ns) == BlocksOf(init) + {last as object};
    }
  }
}
