/** src/core/compute/computation_stack.c: the frame scheduler, a singly
    linked list of named, prioritised computation layers. Higher priority runs
    earlier; a layer pushed with a priority already present goes after the
    existing layers of that priority. */
module ComputationStack {
  import opened Handles

  /** What a layer carries: its name, priority and the identity of its `fn`. */
  datatype LayerInfo = LayerInfo(name: string, priority: int, fn: Ptr)

  // ---- specification on sequences -------------------------------------------

  /** Where `comp_stack_add` puts `x`: before the first layer whose priority is
      strictly lower than `x`'s, or at the end. */
  function Insert(s: seq<LayerInfo>, x: LayerInfo): (r: seq<LayerInfo>)
    ensures |r| == |s| + 1
  {
    if s == [] || x.priority > s[0].priority then [x] + s
    else [s[0]] + Insert(s[1..], x)
  }

  ghost predicate NonIncreasing(s: seq<LayerInfo>) {
    forall i, j :: 0 <= i < j < |s| ==> s[i].priority >= s[j].priority
  }

  /** The `fn` of every layer, top to bottom: the calls `comp_stack_execute` makes. */
  function Fns(s: seq<LayerInfo>): (r: seq<Ptr>)
    ensures |r| == |s| && forall i :: 0 <= i < |s| ==> r[i] == s[i].fn
  {
    if s == [] then [] else [s[0].fn] + Fns(s[1..])
  }

  /** Position of the first layer named `name`, or `|s|` when there is none. */
  function FirstNamed(s: seq<LayerInfo>, name: string): (k: nat)
    ensures k <= |s|
    ensures forall j :: 0 <= j < k ==> s[j].name != name
    ensures k < |s| ==> s[k].name == name
  {
    if s == [] then 0 else if s[0].name == name then 0 else 1 + FirstNamed(s[1..], name)
  }

  /** `FirstNamed` is the generic first-index scan with the name test. */
  lemma {:induction false} FirstNamedIsFirstIndex(s: seq<LayerInfo>, name: string)
    ensures FirstNamed(s, name) == FirstIndex(s, (l: LayerInfo) => l.name == name)
  {
    if s != [] && s[0].name != name {
      FirstNamedIsFirstIndex(s[1..], name);
    }
  }

  /** `s` without its first layer named `name`. */
  function RemoveFirst(s: seq<LayerInfo>, name: string): seq<LayerInfo> {
    var k := FirstNamed(s, name);
    if k == |s| then s else s[..k] + s[k + 1..]
  }

  /** `Insert` splits the list at the first strictly lower priority: everything
      before keeps its place, everything from there on moves down by one. */
  lemma {:induction false} InsertAt(s: seq<LayerInfo>, x: LayerInfo, k: nat)
    requires k <= |s|
    requires forall j :: 0 <= j < k ==> s[j].priority >= x.priority
    requires k < |s| ==> s[k].priority < x.priority
    ensures Insert(s, x) == s[..k] + [x] + s[k..]
  {
    if k == 0 {
      assert s[..0] + [x] + s[0..] == [x] + s;
    } else {
      assert s[0].priority >= x.priority;
      InsertAt(s[1..], x, k - 1);
      assert s[..k] + [x] + s[k..] == [s[0]] + (s[1..][..k - 1] + [x] + s[1..][k - 1..]);
    }
  }

  /** The split point of `Insert` exists for every list. */
  lemma {:induction false} InsertSplit(s: seq<LayerInfo>, x: LayerInfo) returns (k: nat)
    ensures k <= |s|
    ensures forall j :: 0 <= j < k ==> s[j].priority >= x.priority
    ensures k < |s| ==> s[k].priority < x.priority
    ensures Insert(s, x) == s[..k] + [x] + s[k..]
  {
    k := 0;
    while k < |s| && s[k].priority >= x.priority
      invariant k <= |s|
      invariant forall j :: 0 <= j < k ==> s[j].priority >= x.priority
    {
      k := k + 1;
    }
    InsertAt(s, x, k);
  }

  /** Pushing keeps the stack sorted by non-increasing priority. */
  lemma InsertSorted(s: seq<LayerInfo>, x: LayerInfo)
    requires NonIncreasing(s)
    ensures NonIncreasing(Insert(s, x))
  {
    var k := InsertSplit(s, x);
    var r := Insert(s, x);
    forall i, j | 0 <= i < j < |r|
      ensures r[i].priority >= r[j].priority
    {
      if j < k {
        assert r[i] == s[i] && r[j] == s[j];
      } else if j == k {
        assert r[j] == x;
        assert r[i] == s[i];
      } else if i < k {
        assert r[i] == s[i] && r[j] == s[j - 1];
      } else if i == k {
        assert r[i] == x && r[j] == s[j - 1];
        assert s[j - 1].priority <= s[k].priority;
      } else {
        assert r[i] == s[i - 1] && r[j] == s[j - 1];
      }
    }
  }

  /** On a sorted stack a pushed layer lands after every layer of priority at
      least its own (so after the equal ones: FIFO) and before every lower one. */
  lemma InsertFifo(s: seq<LayerInfo>, x: LayerInfo) returns (k: nat)
    requires NonIncreasing(s)
    ensures k <= |s| && Insert(s, x) == s[..k] + [x] + s[k..]
    ensures forall j :: 0 <= j < k ==> s[j].priority >= x.priority
    ensures forall j :: k <= j < |s| ==> s[j].priority < x.priority
  {
    k := InsertSplit(s, x);
    assert forall j :: k <= j < |s| ==> s[j].priority <= s[k].priority;
  }

  /** Removing by name takes out only the first match and keeps the others in order;
      an absent name changes nothing. */
  lemma RemoveFirstShape(s: seq<LayerInfo>, name: string)
    ensures (forall j :: 0 <= j < |s| ==> s[j].name != name) ==> RemoveFirst(s, name) == s
    ensures forall k :: 0 <= k < |s| && s[k].name == name && (forall j :: 0 <= j < k ==> s[j].name != name)
              ==> RemoveFirst(s, name) == s[..k] + s[k + 1..]
  {
    var k := FirstNamed(s, name);
    if k < |s| {
      assert s[k].name == name;
    }
  }

  /** Removing keeps the priority order. */
  lemma RemoveFirstSorted(s: seq<LayerInfo>, name: string)
    requires NonIncreasing(s)
    ensures NonIncreasing(RemoveFirst(s, name))
  {
    var k := FirstNamed(s, name);
    if k < |s| {
      DropSorted(s, k);
    }
  }

  lemma DropSorted(s: seq<LayerInfo>, k: nat)
    requires NonIncreasing(s) && k < |s|
    ensures NonIncreasing(s[..k] + s[k + 1..])
  {
    var r := s[..k] + s[k + 1..];
    forall i, j | 0 <= i < j < |r|
      ensures r[i].priority >= r[j].priority
    {
      var i', j' := if i < k then i else i + 1, if j < k then j else j + 1;
      assert r[i] == s[i'];
      assert r[j] == s[j'];
    }
  }

  /** The example of equal priorities: A@300, B@300, C@100 run in the order A, B, C. */
  lemma TieBreakExample(a: Ptr, b: Ptr, c: Ptr)
    ensures Fns(Insert(Insert(Insert([], LayerInfo("A", 300, a)), LayerInfo("B", 300, b)),
                       LayerInfo("C", 100, c))) == [a, b, c]
  {
    var A, B, C := LayerInfo("A", 300, a), LayerInfo("B", 300, b), LayerInfo("C", 100, c);
    assert Insert([], A) == [A];
    assert Insert([A], B) == [A] + Insert([], B) == [A, B];
    assert Insert([A, B], C) == [A] + Insert([B], C);
    assert Insert([B], C) == [B] + Insert([], C) == [B, C];
    assert Fns([A, B, C]) == [a, b, c];
  }

  // ---- the linked list -------------------------------------------------------

  /** `ComputationLayer`: one heap node of the list. Only `next` is ever
      written after the node is set up. */
  class Layer {
    const name: string
    const priority: int
    const fn: Ptr
    var next: Layer?

    function Info(): LayerInfo {
      LayerInfo(name, priority, fn)
    }

    /** `calloc` + field writes of `push_layer`. */
    constructor (name: string, priority: int, fn: Ptr)
      ensures Info() == LayerInfo(name, priority, fn) && next == null
    {
      this.name, this.priority, this.fn, this.next := name, priority, fn, null;
    }
  }

  /** No node occurs twice. */
  ghost predicate Distinct(ns: seq<Layer>) {
    forall i, j :: 0 <= i < j < |ns| ==> ns[i] != ns[j]
  }

  lemma DistinctInsert(ns: seq<Layer>, k: nat, l: Layer)
    requires Distinct(ns) && k <= |ns| && l !in ns
    ensures Distinct(ns[..k] + [l] + ns[k..])
    ensures forall n :: n in ns[..k] + [l] + ns[k..] <==> n in ns || n == l
  {
    var r := ns[..k] + [l] + ns[k..];
    assert forall i :: 0 <= i < |r| ==> r[i] == if i < k then ns[i] else if i == k then l else ns[i - 1];
    assert forall n :: n in ns ==> n in r by {
      forall n | n in ns ensures n in r {
        var i :| 0 <= i < |ns| && ns[i] == n;
        assert r[if i < k then i else i + 1] == n;
      }
    }
  }

  /** Inserting a node of a set into a list of nodes of that set keeps every
      node in the set. */
  lemma WithinInsert(ns: seq<Layer>, k: nat, l: Layer, S: set<Layer>, r: seq<Layer>)
    requires k <= |ns| && l in S && forall i :: 0 <= i < |ns| ==> ns[i] in S
    requires r == ns[..k] + [l] + ns[k..]
    ensures forall i :: 0 <= i < |r| ==> r[i] in S
  {
    assert forall i :: 0 <= i < |r| ==> r[i] == if i < k then ns[i] else if i == k then l else ns[i - 1];
  }

  lemma WithinRemove(ns: seq<Layer>, k: nat, S: set<Layer>, r: seq<Layer>)
    requires k < |ns| && forall i :: 0 <= i < |ns| ==> ns[i] in S
    requires r == ns[..k] + ns[k + 1..]
    ensures forall i :: 0 <= i < |r| ==> r[i] in S
  {
    assert forall i :: 0 <= i < |r| ==> r[i] == if i < k then ns[i] else ns[i + 1];
  }

  lemma DistinctRemove(ns: seq<Layer>, k: nat)
    requires Distinct(ns) && k < |ns|
    ensures Distinct(ns[..k] + ns[k + 1..])
    ensures forall n :: n in ns[..k] + ns[k + 1..] <==> n in ns && n != ns[k]
  {
    var r := ns[..k] + ns[k + 1..];
    assert forall i :: 0 <= i < |r| ==> r[i] == if i < k then ns[i] else ns[i + 1];
    assert forall n :: n in ns && n != ns[k] ==> n in r by {
      forall n | n in ns && n != ns[k] ensures n in r {
        var i :| 0 <= i < |ns| && ns[i] == n;
        assert r[if i < k then i else i - 1] == n;
      }
    }
  }

  /** What the nodes carry, in order. */
  function Infos(ns: seq<Layer>): (r: seq<LayerInfo>)
    ensures |r| == |ns| && forall i :: 0 <= i < |ns| ==> r[i] == ns[i].Info()
  {
    seq(|ns|, i requires 0 <= i < |ns| => ns[i].Info())
  }

  lemma InfosInsert(ns: seq<Layer>, k: nat, l: Layer)
    requires k <= |ns|
    ensures Infos(ns[..k] + [l] + ns[k..]) == Infos(ns)[..k] + [l.Info()] + Infos(ns)[k..]
  {
    var r := ns[..k] + [l] + ns[k..];
    assert forall i :: 0 <= i < |r| ==> r[i] == if i < k then ns[i] else if i == k then l else ns[i - 1];
  }

  lemma InfosRemove(ns: seq<Layer>, k: nat)
    requires k < |ns|
    ensures Infos(ns[..k] + ns[k + 1..]) == Infos(ns)[..k] + Infos(ns)[k + 1..]
  {
    var r := ns[..k] + ns[k + 1..];
    assert forall i :: 0 <= i < |r| ==> r[i] == if i < k then ns[i] else ns[i + 1];
  }

  /** Each node's `next` is the following node, and the last one's is NULL. */
  /** Everything `Valid` needs about the node list once `l` is linked in
      after position `k`. */
  lemma InsertAfter(on: seq<Layer>, k: nat, l: Layer, S: set<Layer>)
    requires k < |on| && l !in on && Distinct(on)
    requires forall i :: 0 <= i < |on| ==> on[i] in S
    requires forall i :: 0 <= i < |on| - 1 && i != k ==> on[i].next == on[i + 1]
    requires k < |on| - 1 ==> on[|on| - 1].next == null
    requires on[k].next == l && l.next == (if k + 1 < |on| then on[k + 1] else null)
    ensures var r := on[..k + 1] + [l] + on[k + 1..];
      r[0] == on[0] && Linked(r) && Distinct(r) &&
      (forall i :: 0 <= i < |r| ==> r[i] in S + {l}) &&
      Infos(r) == Infos(on)[..k + 1] + [l.Info()] + Infos(on)[k + 1..]
  {
    var r := on[..k + 1] + [l] + on[k + 1..];
    LinkedInsert(on, k, l);
    DistinctInsert(on, k + 1, l);
    InfosInsert(on, k + 1, l);
    WithinInsert(on, k + 1, l, S + {l}, r);
  }

  ghost predicate Linked(ns: seq<Layer>)
    reads ns
  {
    (forall i :: 0 <= i < |ns| - 1 ==> ns[i].next == ns[i + 1]) &&
    (ns != [] ==> ns[|ns| - 1].next == null)
  }

  /** A node pointing at the first node of a linked list extends it at the
      front. */
  lemma LinkedCons(ns: seq<Layer>, l: Layer)
    requires Linked(ns) && l !in ns
    requires ns == [] ==> l.next == null
    requires ns != [] ==> l.next == ns[0]
    ensures Linked([l] + ns)
  {
    var r := [l] + ns;
    assert forall i :: 0 < i < |r| ==> r[i] == ns[i - 1];
  }

  /** Node `k` pointing at `l`, `l` at node `k`'s successor, and every
      other link as before make `l` linked in after node `k`. */
  lemma LinkedInsert(on: seq<Layer>, k: nat, l: Layer)
    requires k < |on| && l !in on
    requires forall i :: 0 <= i < |on| - 1 && i != k ==> on[i].next == on[i + 1]
    requires k < |on| - 1 ==> on[|on| - 1].next == null
    requires on[k].next == l && l.next == (if k + 1 < |on| then on[k + 1] else null)
    ensures Linked(on[..k + 1] + [l] + on[k + 1..])
  {
    var r := on[..k + 1] + [l] + on[k + 1..];
    assert forall i :: 0 <= i < |r| ==> r[i] == if i <= k then on[i] else if i == k + 1 then l else on[i - 1];
    forall i | 0 <= i < |r| - 1
      ensures r[i].next == r[i + 1]
    {
      if i > k + 1 {
        assert r[i] == on[i - 1] && r[i + 1] == on[i];
      }
    }
  }

  /** Node `k - 1` pointing past node `k` and every other link as before
      make the list without node `k` linked; for `k == 0` nothing changes. */
  lemma LinkedRemove(on: seq<Layer>, k: nat)
    requires k < |on|
    requires forall i :: 0 <= i < |on| - 1 && i != k - 1 && i != k ==> on[i].next == on[i + 1]
    requires k < |on| - 1 ==> on[|on| - 1].next == null
    requires k > 0 ==> on[k - 1].next == (if k + 1 < |on| then on[k + 1] else null)
    ensures Linked(on[..k] + on[k + 1..])
  {
    var r := on[..k] + on[k + 1..];
    assert forall i :: 0 <= i < |r| ==> r[i] == if i < k then on[i] else on[i + 1];
    forall i | 0 <= i < |r| - 1
      ensures r[i].next == r[i + 1]
    {
      if i >= k {
        assert r[i] == on[i + 1] && r[i + 1] == on[i + 2];
      }
    }
  }

  /** `ComputationStack`: the `top` pointer; `nodes` lists the reachable
      nodes in order, and `Repr`, the set of nodes the stack may change,
      holds them all. */
  class ComputationStack {
    var top: Layer?
    ghost var nodes: seq<Layer>
    ghost var Repr: set<Layer>

    ghost predicate Valid()
      reads this, Repr
    {
      (forall i :: 0 <= i < |nodes| ==> nodes[i] in Repr) &&
      Distinct(nodes) && top == (if nodes == [] then null else nodes[0]) && Linked(nodes)
    }

    /** The layers, top to bottom. */
    ghost function Contents(): seq<LayerInfo>
      reads this
    {
      Infos(nodes)
    }

    /** `comp_stack_init`: an empty stack. */
    constructor ()
      ensures Valid() && Contents() == [] && top == null
    {
      top := null;
      nodes := [];
      Repr := {};
    }

    /** `comp_stack_add`: links `l` in before the first layer of strictly lower
        priority. The head test is strict (`>`), the walk continues over equal
        priorities (`>=`), so equal priorities keep their push order. */
    method Add(l: Layer)
      requires Valid() && l !in nodes
      modifies this, Repr, l
      ensures Valid() && Repr == old(Repr) + {l}
      ensures Contents() == Insert(old(Contents()), l.Info())
      ensures old(NonIncreasing(Contents())) ==> NonIncreasing(Contents())
    {
      ghost var s := Contents();
      ghost var x := l.Info();
      if top == null || l.priority > top.priority {
        LinkFirst(l);
        InsertAt(s, x, 0);
        if NonIncreasing(s) { InsertSorted(s, x); }
        return;
      }
      var it := top;
      ghost var k := 0;
      while it.next != null && it.next.priority >= l.priority
        invariant 0 <= k < |nodes| && it == nodes[k]
        invariant forall j :: 0 <= j <= k ==> s[j].priority >= x.priority
        decreases |nodes| - k
      {
        it := it.next;
        k := k + 1;
      }
      assert k + 1 < |s| ==> s[k + 1].priority < x.priority;
      LinkAfter(k, it, l);
      InsertAt(s, x, k + 1);
      if NonIncreasing(s) { InsertSorted(s, x); }
    }

    /** The head case of `comp_stack_add`: `l` becomes the top. */
    method LinkFirst(l: Layer)
      requires Valid() && l !in nodes
      modifies this, l
      ensures Valid() && nodes == [l] + old(nodes)
      ensures Repr == old(Repr) + {l}
      ensures Contents() == [l.Info()] + old(Contents())
    {
      ghost var on := nodes;
      l.next := top;
      top := l;
      nodes := [l] + nodes;
      Repr := Repr + {l};
      assert Linked(on);
      LinkedCons(on, l);
      assert [l] + on == on[..0] + [l] + on[0..];
      DistinctInsert(on, 0, l);
      WithinInsert(on, 0, l, Repr, nodes);
      InfosInsert(on, 0, l);
    }

    /** The relinking step of `comp_stack_add`: `l` goes right after `it`, the
        `k`-th layer. */
    method LinkAfter(ghost k: nat, it: Layer, l: Layer)
      requires Valid() && k < |nodes| && it == nodes[k] && l !in nodes
      modifies this, it, l
      ensures Valid() && nodes == old(nodes[..k + 1] + [l] + nodes[k + 1..])
      ensures Repr == old(Repr) + {l}
      ensures top == old(top)
      ensures Contents() == old(Contents()[..k + 1] + [l.Info()] + Contents()[k + 1..])
    {
      assert forall i :: 0 <= i < |nodes| && i != k ==> nodes[i] != it && nodes[i] != l;
      l.next := it.next;
      it.next := l;
      RecordAfter(k, l);
    }

    /** The bookkeeping of `LinkAfter` once the two links are in place. */
    ghost method RecordAfter(k: nat, l: Layer)
      requires k < |nodes| && l !in nodes && Distinct(nodes) && top == nodes[0]
      requires forall i :: 0 <= i < |nodes| ==> nodes[i] in Repr
      requires forall i :: 0 <= i < |nodes| - 1 && i != k ==> nodes[i].next == nodes[i + 1]
      requires k < |nodes| - 1 ==> nodes[|nodes| - 1].next == null
      requires nodes[k].next == l && l.next == (if k + 1 < |nodes| then nodes[k + 1] else null)
      modifies this
      ensures Valid() && nodes == old(nodes[..k + 1] + [l] + nodes[k + 1..])
      ensures Repr == old(Repr) + {l} && top == old(top)
      ensures Contents() == old(Contents()[..k + 1] + [l.Info()] + Contents()[k + 1..])
    {
      InsertAfter(nodes, k, l, Repr);
      nodes := nodes[..k + 1] + [l] + nodes[k + 1..];
      Repr := Repr + {l};
    }

    /** `comp_stack_remove`: unlinks (and frees) the first layer named `name`;
        an absent name is a silent no-op. */
    method Remove(name: string)
      requires Valid()
      modifies this, Repr
      ensures Valid() && Repr == old(Repr)
      ensures Contents() == RemoveFirst(old(Contents()), name)
      ensures old(NonIncreasing(Contents())) ==> NonIncreasing(Contents())
    {
      ghost var s := Contents();
      var cur, prev := top, null;
      ghost var k := 0;
      while cur != null
        invariant 0 <= k <= |nodes|
        invariant cur == (if k < |nodes| then nodes[k] else null)
        invariant prev == (if k == 0 then null else nodes[k - 1])
        invariant forall j :: 0 <= j < k ==> s[j].name != name
        invariant Valid() && nodes == old(nodes) && s == Contents()
        decreases |nodes| - k
      {
        if cur.name == name {
          assert s[k] == cur.Info();
          assert FirstNamed(s, name) == k;
          UnlinkAt(k, prev, cur);
          if NonIncreasing(s) { RemoveFirstSorted(s, name); }
          return;
        }
        prev := cur;
        cur := cur.next;
        k := k + 1;
      }
      assert FirstNamed(s, name) == |s|;
    }

    /** The relinking step of `comp_stack_remove`: `cur`, the `k`-th layer, is
        bypassed from `prev`, or from `top` when it is the first. */
    method UnlinkAt(ghost k: nat, prev: Layer?, cur: Layer)
      requires Valid() && k < |nodes| && cur == nodes[k]
      requires prev == (if k == 0 then null else nodes[k - 1])
      modifies this, prev
      ensures Valid() && nodes == old(nodes[..k] + nodes[k + 1..])
      ensures Repr == old(Repr)
      ensures Contents() == old(Contents()[..k] + Contents()[k + 1..])
    {
      ghost var on := nodes;
      assert forall i :: 0 <= i < |on| && i != k - 1 ==> on[i] != prev;
      if prev != null {
        prev.next := cur.next;
      } else {
        top := cur.next;
      }
      nodes := nodes[..k] + nodes[k + 1..];
      LinkedRemove(on, k);
      DistinctRemove(on, k);
      WithinRemove(on, k, Repr, nodes);
      InfosRemove(on, k);
    }

    /** `comp_stack_destroy`: every layer is released and `top` becomes NULL. */
    method Destroy()
      requires Valid()
      modifies this
      ensures Valid() && top == null && Contents() == []
    {
      top := null;
      nodes := [];
      Repr := {};
    }
  }

  /** `comp_stack_execute`: calls every layer's `fn` once, top to bottom; a
      NULL stack calls nothing. Returns the functions called, in call order. */
  method Execute(stack: ComputationStack?) returns (calls: seq<Ptr>)
    requires stack != null ==> stack.Valid()
    ensures stack == null ==> calls == []
    ensures stack != null ==> calls == Fns(stack.Contents())
  {
    calls := [];
    if stack == null {
      return;
    }
    ghost var s := stack.Contents();
    var it := stack.top;
    ghost var k := 0;
    while it != null
      invariant 0 <= k <= |stack.nodes|
      invariant it == (if k < |stack.nodes| then stack.nodes[k] else null)
      invariant calls == Fns(s[..k])
      decreases |stack.nodes| - k
    {
      assert s[..k + 1] == s[..k] + [s[k]];
      FnsAppend(s[..k], s[k]);
      assert it.next == (if k + 1 < |stack.nodes| then stack.nodes[k + 1] else null);
      calls := calls + [it.fn];
      it := it.next;
      k := k + 1;
    }
    assert s[..k] == s;
  }

  lemma {:induction false} FnsAppend(s: seq<LayerInfo>, x: LayerInfo)
    ensures Fns(s + [x]) == Fns(s) + [x.fn]
  {
    if s != [] {
      assert (s + [x])[1..] == s[1..] + [x];
      FnsAppend(s[1..], x);
    }
  }

  /** `push_layer`: allocates a node carrying exactly `name`, `prio` and `fn`
      and adds it to the stack. */
  method PushLayer(stack: ComputationStack, name: string, fn: Ptr, prio: int) returns (l: Layer)
    requires stack.Valid()
    modifies stack, stack.Repr
    ensures stack.Valid() && fresh(l) && stack.Repr == old(stack.Repr) + {l}
    ensures l.Info() == LayerInfo(name, prio, fn)
    ensures stack.Contents() == Insert(old(stack.Contents()), LayerInfo(name, prio, fn))
  {
    l := new Layer(name, prio, fn);
    stack.Add(l);
  }
}
