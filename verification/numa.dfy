/** The NUMA topology: nodes to CPUs, CPUs to nodes, and the policy text both ways. */
module Numa {
  import opened Types

  const MAX_CPUS: nat := 65536

  // ----- the two-way index -----

  predicate Ascending(cpus: seq<nat>) {
    forall i, j :: 0 <= i < j < |cpus| ==> cpus[i] < cpus[j]
  }

  /** The node lists and the reverse map. */
  datatype Topology = Topology(nodes: seq<seq<nat>>, nodeOf: map<nat, nat>)

  const BARE := Topology([], map[])

  /** Lists that ascend, each of whose CPUs the map has. */
  predicate Known(nodes: seq<seq<nat>>, nodeOf: map<nat, nat>) {
    && (forall n :: 0 <= n < |nodes| ==> Ascending(nodes[n]))
    && (forall n, c :: 0 <= n < |nodes| && c in nodes[n] ==> c in nodeOf && nodeOf[c] == n)
  }

  /** Node lists ascend, and the reverse map is exact; so no CPU is on two nodes. */
  predicate Consistent(t: Topology) {
    && Known(t.nodes, t.nodeOf)
    && (forall c :: c in t.nodeOf ==> c < MAX_CPUS && t.nodeOf[c] < |t.nodes| && c in t.nodes[t.nodeOf[c]])
  }

  /** How many CPUs the node lists hold together. */
  function Total(nodes: seq<seq<nat>>): nat {
    if nodes == [] then 0 else Total(nodes[..|nodes| - 1]) + |nodes[|nodes| - 1]|
  }

  function Members(cpus: seq<nat>): set<nat> {
    set c | c in cpus
  }

  lemma {:induction false} AscendingSize(cpus: seq<nat>)
    requires Ascending(cpus)
    ensures |Members(cpus)| == |cpus|
  {
    if cpus != [] {
      var last := |cpus| - 1;
      AscendingSize(cpus[..last]);
      assert Members(cpus) == Members(cpus[..last]) + {cpus[last]};
    }
  }

  function Listed(nodes: seq<seq<nat>>): set<nat> {
    if nodes == [] then {} else Listed(nodes[..|nodes| - 1]) + Members(nodes[|nodes| - 1])
  }

  lemma {:induction false} ListedMembers(nodes: seq<seq<nat>>, c: nat)
    ensures c in Listed(nodes) <==> exists n :: 0 <= n < |nodes| && c in nodes[n]
  {
    if nodes != [] {
      var last := |nodes| - 1;
      ListedMembers(nodes[..last], c);
      if n :| 0 <= n < |nodes[..last]| && c in nodes[..last][n] {
        assert c in nodes[n];
      }
      if n :| 0 <= n < |nodes| && c in nodes[n] {
        assert n < last ==> c in nodes[..last][n];
      }
    }
  }

  /** A CPU of node n is on no earlier node. */
  lemma OnOneNode(t: Topology, n: nat, c: nat)
    requires Consistent(t) && n < |t.nodes| && c in t.nodes[n]
    ensures c !in Listed(t.nodes[..n])
  {
    ListedMembers(t.nodes[..n], c);
    assert forall m :: 0 <= m < n ==> t.nodes[..n][m] == t.nodes[m] && (c in t.nodes[m] ==> t.nodeOf[c] == m);
    hide Listed;
  }

  lemma {:induction false} ListedSize(t: Topology, n: nat)
    requires Consistent(t) && n <= |t.nodes|
    ensures |Listed(t.nodes[..n])| == Total(t.nodes[..n])
  {
    if n > 0 {
      ListedSize(t, n - 1);
      var front, last := t.nodes[..n - 1], t.nodes[n - 1];
      assert t.nodes[..n][..n - 1] == front;
      AscendingSize(last);
      forall c | c in last
        ensures c !in Listed(front)
      {
        OnOneNode(t, n - 1, c);
      }
      assert Listed(front) * Members(last) == {};
    }
  }

  /** The reverse map has exactly as many entries as the lists have CPUs. */
  lemma AssignedIsTotal(t: Topology)
    requires Consistent(t)
    ensures |t.nodeOf| == Total(t.nodes)
  {
    ListedSize(t, |t.nodes|);
    assert t.nodes[..|t.nodes|] == t.nodes;
    forall c
      ensures c in Listed(t.nodes) <==> c in t.nodeOf
    {
      ListedMembers(t.nodes, c);
    }
    assert Listed(t.nodes) == t.nodeOf.Keys;
  }

  // ----- adding a CPU -----

  /** cpu in its place in an ascending list. */
  function Inserted(cpus: seq<nat>, cpu: nat): seq<nat> {
    if cpus == [] || cpus[|cpus| - 1] < cpu then cpus + [cpu]
    else if cpus[|cpus| - 1] == cpu then cpus
    else Inserted(cpus[..|cpus| - 1], cpu) + [cpus[|cpus| - 1]]
  }

  lemma {:induction false} InsertedMeans(cpus: seq<nat>, cpu: nat)
    requires Ascending(cpus)
    ensures Ascending(Inserted(cpus, cpu))
    ensures forall c :: c in Inserted(cpus, cpu) <==> c == cpu || c in cpus
  {
    if cpus == [] || cpus[|cpus| - 1] <= cpu {
    } else {
      var front, last := cpus[..|cpus| - 1], cpus[|cpus| - 1];
      assert cpus == front + [last];
      InsertedMeans(front, cpu);
      assert forall i :: 0 <= i < |Inserted(front, cpu)| ==> Inserted(front, cpu)[i] in Inserted(front, cpu);
    }
  }

  /** The place is after everything smaller and before everything that is not. */
  lemma {:induction false} InsertedAt(cpus: seq<nat>, cpu: nat, i: nat)
    requires Ascending(cpus) && i <= |cpus|
    requires (forall j :: 0 <= j < i ==> cpus[j] < cpu) && (forall j :: i <= j < |cpus| ==> cpu <= cpus[j])
    ensures Inserted(cpus, cpu) == if i < |cpus| && cpus[i] == cpu then cpus else cpus[..i] + [cpu] + cpus[i..]
  {
    var last := |cpus| - 1;
    if i == |cpus| {
      assert cpus[..i] + [cpu] + cpus[i..] == cpus + [cpu];
    } else if cpus[last] == cpu {
    } else {
      assert cpu < cpus[last];
      SpliceLast(cpus, i, cpu);
      var front := cpus[..last];
      assert Ascending(front) && front + [cpus[last]] == cpus;
      assert i < last ==> front[i] == cpus[i];
      hide Ascending;
      InsertedAt(front, cpu, i);
    }
  }

  lemma SpliceLast(cpus: seq<nat>, i: nat, cpu: nat)
    requires i < |cpus|
    ensures var front := cpus[..|cpus| - 1];
            front[..i] + [cpu] + front[i..] + [cpus[|cpus| - 1]] == cpus[..i] + [cpu] + cpus[i..]
  {
  }

  /** Empty nodes up to and including this one. */
  function Padded(nodes: seq<seq<nat>>, node: nat): (r: seq<seq<nat>>)
    ensures |r| == if node < |nodes| then |nodes| else node + 1
    ensures forall n :: 0 <= n < |r| ==> r[n] == if n < |nodes| then nodes[n] else []
  {
    if node < |nodes| then nodes else nodes + seq(node + 1 - |nodes|, _ => [])
  }

  /** numa_config_add_cpu_to_node: any CPU already assigned is refused, its own node's included. */
  function Add(t: Topology, node: nat, cpu: nat): Option<Topology> {
    if cpu >= MAX_CPUS || cpu in t.nodeOf then None
    else
      var nodes := Padded(t.nodes, node);
      Some(Topology(nodes[node := Inserted(nodes[node], cpu)], t.nodeOf[cpu := node]))
  }

  lemma AddConsistent(t: Topology, node: nat, cpu: nat)
    requires Consistent(t) && Add(t, node, cpu).Some?
    ensures Consistent(Add(t, node, cpu).value)
  {
    var nodes := Padded(t.nodes, node);
    InsertedMeans(nodes[node], cpu);
    hide Inserted, Padded, Ascending;
    assert Ascending(nodes[node]) by {
      EmptyAscends();
    }
  }

  lemma EmptyAscends()
    ensures Ascending([])
  {
  }

  // ----- closing the gaps -----

  function NonEmpty(nodes: seq<seq<nat>>): seq<seq<nat>> {
    if nodes == [] then []
    else
      var r := NonEmpty(nodes[..|nodes| - 1]);
      if nodes[|nodes| - 1] == [] then r else r + [nodes[|nodes| - 1]]
  }

  predicate NoneEmpty(nodes: seq<seq<nat>>) {
    forall n :: 0 <= n < |nodes| ==> nodes[n] != []
  }

  lemma {:induction false} NonEmptyMeans(nodes: seq<seq<nat>>)
    ensures NoneEmpty(NonEmpty(nodes)) && |NonEmpty(nodes)| <= |nodes|
    ensures Listed(NonEmpty(nodes)) == Listed(nodes) && Total(NonEmpty(nodes)) == Total(nodes)
    ensures NoneEmpty(nodes) ==> NonEmpty(nodes) == nodes
  {
    if nodes != [] {
      var front, last := nodes[..|nodes| - 1], nodes[|nodes| - 1];
      NonEmptyMeans(front);
      assert nodes == front + [last];
      if last != [] {
        assert (NonEmpty(front) + [last])[..|NonEmpty(front)|] == NonEmpty(front);
      }
    }
  }

  // ----- the configuration -----

  datatype AddStatus = AddOk | AddConflict | AddOom

  /** Whether the room one addition asks for is there: in the array of nodes, in the reverse map and
      in the node's own list. */
  datatype Memory = Memory(nodes: bool, cpuMap: bool, list: bool)

  const GRANTED := Memory(true, true, true)

  /** Every addition finds room. */
  ghost predicate Ample(memory: nat -> Memory) {
    forall c :: memory(c) == GRANTED
  }

  class NumaConfig {
    var nodes: seq<seq<nat>>
    var nodeByCpu: map<nat, nat>
    var assignedCpus: nat
    var customAffinity: bool

    function Abs(): Topology
      reads this`nodes, this`nodeByCpu
    {
      Topology(nodes, nodeByCpu)
    }

    ghost predicate Valid()
      reads this`nodes, this`nodeByCpu, this`assignedCpus
    {
      Consistent(Abs()) && assignedCpus == Total(nodes)
    }

    constructor ()
      ensures Valid() && Abs() == BARE && !customAffinity
    {
      nodes, nodeByCpu, assignedCpus, customAffinity := [], map[], 0, false;
    }

    /** node_insert_sorted: past the end at once, or by binary search. Only a CPU not yet there
        needs room. */
    method NodeInsertSorted(node: nat, cpu: nat, room: bool) returns (ok: bool)
      requires node < |nodes| && Ascending(nodes[node])
      modifies this`nodes
      ensures ok <==> room || cpu in old(nodes)[node]
      ensures nodes == if ok then old(nodes)[node := Inserted(old(nodes)[node], cpu)] else old(nodes)
    {
      hide Inserted;
      var cpus := nodes[node];
      var i := |cpus|;
      if |cpus| == 0 || cpus[|cpus| - 1] < cpu {
        i := |cpus|;
      } else {
        var lo, hi := 0, |cpus|;
        while lo < hi
          invariant 0 <= lo <= hi <= |cpus|
          invariant forall j :: 0 <= j < lo ==> cpus[j] < cpu
          invariant forall j :: hi <= j < |cpus| ==> cpu <= cpus[j]
        {
          var mid := lo + (hi - lo) / 2;
          if cpus[mid] < cpu {
            lo := mid + 1;
          } else {
            hi := mid;
          }
        }
        i := lo;
      }
      InsertedAt(cpus, cpu, i);
      if i < |cpus| && cpus[i] == cpu {
        return true;
      }
      assert i < |cpus| ==> cpu < cpus[i];
      if !room {
        return false;
      }
      nodes := nodes[node := cpus[..i] + [cpu] + cpus[i..]];
      return true;
    }

    lemma ValidIs()
      ensures Valid() <==> Consistent(Abs()) && assignedCpus == Total(nodes)
      ensures Abs() == Topology(nodes, nodeByCpu)
    {
      hide Consistent, Total;
    }

    /** numa_config_add_cpu_to_node. An addition that runs out of memory assigns no CPU; at most it
        leaves empty nodes behind. */
    method AddCpuToNode(node: nat, cpu: nat, memory: Memory) returns (status: AddStatus)
      requires Valid()
      modifies this`nodes, this`nodeByCpu, this`assignedCpus
      ensures Valid()
      ensures status == AddConflict <==> Add(old(Abs()), node, cpu) == None
      ensures status == AddOom <==> Add(old(Abs()), node, cpu).Some? && memory != GRANTED
      ensures status == AddOk ==> Abs() == Add(old(Abs()), node, cpu).value
      ensures status == AddConflict ==> Abs() == old(Abs())
      ensures status == AddOom ==>
                nodeByCpu == old(nodeByCpu) &&
                nodes == if memory.nodes && memory.cpuMap then Padded(old(nodes), node) else old(nodes)
    {
      hide *;
      ValidIs();
      GrantedIs(memory);
      ghost var t := Abs();
      AddIs(t, node, cpu);
      if cpu >= MAX_CPUS || cpu in nodeByCpu {
        return AddConflict;
      }
      if !memory.nodes || !memory.cpuMap {
        return AddOom;
      }
      AddConsistent(t, node, cpu);
      AssignedIsTotal(t);
      while |nodes| <= node
        invariant |t.nodes| <= |nodes| && (|nodes| <= node + 1 || nodes == t.nodes)
        invariant forall n :: 0 <= n < |nodes| ==> nodes[n] == if n < |t.nodes| then t.nodes[n] else []
        modifies this`nodes
      {
        nodes := nodes + [[]];
      }
      assert nodes == Padded(t.nodes, node);
      PaddedAscends(t, node);
      PaddedConsistent(t, node, cpu);
      var inserted := NodeInsertSorted(node, cpu, memory.list);
      if !inserted {
        ValidIs();
        AssignedIsTotal(Abs());
        return AddOom;
      }
      nodeByCpu := nodeByCpu[cpu := node];
      assignedCpus := assignedCpus + 1;
      ValidIs();
      AssignedIsTotal(Abs());
      return AddOk;
    }

    /** The CPUs of a node that moved down are told its new index. */
    method Renumber(cpus: seq<nat>, dst: nat)
      requires forall c :: c in cpus ==> c in nodeByCpu
      modifies this`nodeByCpu
      ensures nodeByCpu.Keys == old(nodeByCpu).Keys
      ensures forall c :: c in nodeByCpu ==> nodeByCpu[c] == if c in cpus then dst else old(nodeByCpu)[c]
    {
      for i := 0 to |cpus|
        invariant nodeByCpu.Keys == old(nodeByCpu).Keys
        invariant forall c :: c in nodeByCpu ==> nodeByCpu[c] == if c in cpus[..i] then dst else old(nodeByCpu)[c]
      {
        assert cpus[i] in cpus && cpus[..i + 1] == cpus[..i] + [cpus[i]];
        nodeByCpu := nodeByCpu[cpus[i] := dst];
      }
      assert cpus[..|cpus|] == cpus;
    }

    /** numa_config_remove_empty_nodes, in place. */
    method RemoveEmptyNodes()
      requires Valid()
      modifies this`nodes, this`nodeByCpu
      ensures Valid() && nodes == NonEmpty(old(nodes)) && nodeByCpu.Keys == old(nodeByCpu).Keys
    {
      hide *;
      ValidIs();
      ghost var t := Abs();
      CompactedStart(t);
      var dst, src := 0, 0;
      while src < |nodes|
        invariant 0 <= dst <= src <= |nodes| == |t.nodes| && nodeByCpu.Keys == t.nodeOf.Keys
        invariant nodes[src..] == t.nodes[src..] && Compacted(t, nodes[..dst], nodeByCpu, src)
        modifies this`nodes, this`nodeByCpu
      {
        assert nodes[src] == nodes[src..][0] == t.nodes[src];
        if nodes[src] == [] {
          CompactedSkip(t, nodes[..dst], nodeByCpu, src);
        } else {
          ghost var before := nodes;
          CompactedHas(t, nodes[..dst], nodeByCpu, src);
          ghost var nodeOf := nodeByCpu;
          if dst != src {
            nodes := nodes[dst := nodes[src]];
            Renumber(nodes[dst], dst);
          }
          assert nodes[..dst + 1] == before[..dst] + [t.nodes[src]];
          assert nodes[src + 1..] == t.nodes[src + 1..];
          CompactedMove(t, before[..dst], nodeOf, nodeByCpu, src);
          dst := dst + 1;
        }
        src := src + 1;
      }
      nodes := nodes[..dst];
      CompactedEnd(t, nodes, nodeByCpu);
      NonEmptyMeans(t.nodes);
      ValidIs();
    }
  }

  lemma AddIs(t: Topology, node: nat, cpu: nat)
    ensures Add(t, node, cpu) ==
            if cpu >= MAX_CPUS || cpu in t.nodeOf then None
            else Some(Topology(Padded(t.nodes, node)[node := Inserted(Padded(t.nodes, node)[node], cpu)],
                               t.nodeOf[cpu := node]))
  {
  }

  lemma GrantedIs(memory: Memory)
    ensures memory == GRANTED <==> memory.nodes && memory.cpuMap && memory.list
  {
  }

  /** Empty nodes more make no difference to the map, and an unassigned CPU is on none. */
  lemma PaddedConsistent(t: Topology, node: nat, cpu: nat)
    requires Consistent(t) && cpu !in t.nodeOf
    ensures var nodes := Padded(t.nodes, node);
            Consistent(Topology(nodes, t.nodeOf)) && cpu !in nodes[node]
  {
    EmptyAscends();
    hide Ascending;
  }

  lemma PaddedAscends(t: Topology, node: nat)
    requires Consistent(t)
    ensures var nodes := Padded(t.nodes, node); node < |nodes| && Ascending(nodes[node])
  {
    EmptyAscends();
    hide Ascending;
  }

  /** The first src nodes have been gone through: `kept` are those with CPUs, and the reverse map
      has their new indices, the old ones for the rest. */
  ghost predicate Compacted(t: Topology, kept: seq<seq<nat>>, nodeOf: map<nat, nat>, src: nat) {
    && src <= |t.nodes| && |kept| <= src && kept == NonEmpty(t.nodes[..src])
    && nodeOf.Keys == t.nodeOf.Keys
    && Known(kept, nodeOf)
    && (forall c :: c in nodeOf ==> Renumbered(t, kept, nodeOf, src, c))
  }

  /** CPU c's new index, or its old one if its node is still to come. */
  predicate Renumbered(t: Topology, kept: seq<seq<nat>>, nodeOf: map<nat, nat>, src: nat, c: nat)
    requires c in nodeOf && c in t.nodeOf
  {
    if t.nodeOf[c] < src then nodeOf[c] < |kept| && c in kept[nodeOf[c]] else nodeOf[c] == t.nodeOf[c]
  }

  lemma CompactedStart(t: Topology)
    ensures Compacted(t, [], t.nodeOf, 0)
  {
  }

  lemma CompactedSkip(t: Topology, kept: seq<seq<nat>>, nodeOf: map<nat, nat>, src: nat)
    requires Consistent(t) && Compacted(t, kept, nodeOf, src) && src < |t.nodes| && t.nodes[src] == []
    ensures Compacted(t, kept, nodeOf, src + 1)
  {
    assert t.nodes[..src + 1][..src] == t.nodes[..src];
    assert forall c :: c in t.nodeOf ==> c in t.nodes[t.nodeOf[c]];
    hide Ascending;
  }

  lemma CompactedHas(t: Topology, kept: seq<seq<nat>>, nodeOf: map<nat, nat>, src: nat)
    requires Consistent(t) && Compacted(t, kept, nodeOf, src) && src < |t.nodes|
    ensures forall c :: c in t.nodes[src] ==> c in nodeOf && nodeOf[c] == src
  {
    hide Ascending, NonEmpty;
  }

  lemma CompactedMove(t: Topology, kept: seq<seq<nat>>, nodeOf: map<nat, nat>, nodeOf': map<nat, nat>, src: nat)
    requires Consistent(t) && Compacted(t, kept, nodeOf, src) && src < |t.nodes| && t.nodes[src] != []
    requires nodeOf'.Keys == nodeOf.Keys
    requires forall c :: c in nodeOf' ==> nodeOf'[c] == if c in t.nodes[src] then |kept| else nodeOf[c]
    ensures Compacted(t, kept + [t.nodes[src]], nodeOf', src + 1)
  {
    hide *;
    MoreKept(t, src);
    CompactedIs(t, kept, nodeOf, src);
    CompactedIs(t, kept + [t.nodes[src]], nodeOf', src + 1);
    forall c | c in nodeOf'
      ensures Renumbered(t, kept + [t.nodes[src]], nodeOf', src + 1, c)
    {
      RenumberedMore(t, kept, nodeOf, nodeOf', src, c);
    }
    KnownMore(t, kept, nodeOf, nodeOf', src);
  }

  lemma CompactedIs(t: Topology, kept: seq<seq<nat>>, nodeOf: map<nat, nat>, src: nat)
    ensures Compacted(t, kept, nodeOf, src) <==>
              && src <= |t.nodes| && |kept| <= src && kept == NonEmpty(t.nodes[..src])
              && nodeOf.Keys == t.nodeOf.Keys
              && Known(kept, nodeOf)
              && (forall c :: c in nodeOf ==> Renumbered(t, kept, nodeOf, src, c))
  {
    hide Ascending, NonEmpty, Renumbered;
  }

  lemma MoreKept(t: Topology, src: nat)
    requires src < |t.nodes| && t.nodes[src] != []
    ensures NonEmpty(t.nodes[..src + 1]) == NonEmpty(t.nodes[..src]) + [t.nodes[src]]
  {
    assert t.nodes[..src + 1][..src] == t.nodes[..src];
  }

  lemma RenumberedMore(t: Topology, kept: seq<seq<nat>>, nodeOf: map<nat, nat>, nodeOf': map<nat, nat>, src: nat,
                       c: nat)
    requires Consistent(t) && src < |t.nodes| && c in nodeOf && c in nodeOf' && c in t.nodeOf
    requires Renumbered(t, kept, nodeOf, src, c)
    requires nodeOf'[c] == if c in t.nodes[src] then |kept| else nodeOf[c]
    ensures Renumbered(t, kept + [t.nodes[src]], nodeOf', src + 1, c)
  {
    assert c in t.nodes[t.nodeOf[c]];
    assert c in t.nodes[src] ==> t.nodeOf[c] == src;
    hide Ascending;
  }

  lemma KnownMore(t: Topology, kept: seq<seq<nat>>, nodeOf: map<nat, nat>, nodeOf': map<nat, nat>, src: nat)
    requires Consistent(t) && src < |t.nodes| && |kept| <= src && nodeOf'.Keys == nodeOf.Keys == t.nodeOf.Keys
    requires Known(kept, nodeOf) && forall c :: c in nodeOf ==> Renumbered(t, kept, nodeOf, src, c)
    requires forall c :: c in nodeOf' ==> nodeOf'[c] == if c in t.nodes[src] then |kept| else nodeOf[c]
    ensures Known(kept + [t.nodes[src]], nodeOf')
  {
    var more := kept + [t.nodes[src]];
    assert forall c :: c in t.nodes[src] ==> c in t.nodeOf && t.nodeOf[c] == src;
    forall n, c | 0 <= n < |more| && c in more[n]
      ensures c in nodeOf' && nodeOf'[c] == n
    {
      if n < |kept| {
        assert c in kept[n] && nodeOf[c] == n;
        assert Renumbered(t, kept, nodeOf, src, c);
      }
    }
    forall n | 0 <= n < |more|
      ensures Ascending(more[n])
    {
    }
    hide Ascending;
  }

  lemma CompactedEnd(t: Topology, kept: seq<seq<nat>>, nodeOf: map<nat, nat>)
    requires Consistent(t) && Compacted(t, kept, nodeOf, |t.nodes|)
    ensures Consistent(Topology(kept, nodeOf)) && kept == NonEmpty(t.nodes)
  {
    assert t.nodes[..|t.nodes|] == t.nodes;
    hide Ascending, NonEmpty;
  }
}
