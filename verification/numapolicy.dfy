/** The NUMA policy string: parsed into a configuration, printed from one, and both together. */
module NumaPolicy {
  import opened Types
  import opened Decimals
  import opened NumaText
  import opened Numa

  // ----- what a policy means -----

  /** Add lo to hi in turn; one refusal refuses them all. */
  function AddRange(t: Topology, node: nat, lo: nat, hi: nat): Option<Topology>
    decreases if lo <= hi then hi + 1 - lo else 0
  {
    if lo > hi then Some(t)
    else
      var r := Add(t, node, lo);
      if r.None? then None else AddRange(r.value, node, lo + 1, hi)
  }

  /** One element of a list: empty ones are skipped, unreadable ones only if not strict. The flag
      says whether any index was named. */
  function AddElement(t: Topology, seen: bool, node: nat, element: string, strict: bool): Option<(Topology, bool)> {
    if element == "" then Some((t, seen))
    else
      var range := ParseElement(element);
      if range.None? then if strict then None else Some((t, seen))
      else
        var r := AddRange(t, node, range.value.0, range.value.1);
        if r.None? then None else Some((r.value, seen || range.value.0 <= range.value.1))
  }

  function AddElements(t: Topology, node: nat, parts: seq<string>, strict: bool): Option<(Topology, bool)> {
    if parts == [] then Some((t, false))
    else
      var r := AddElements(t, node, parts[..|parts| - 1], strict);
      if r.None? then None else AddElement(r.value.0, r.value.1, node, parts[|parts| - 1], strict)
  }

  /** The segments fill nodes in turn; one that names no index does not use up a node. */
  function AddSegments(segments: seq<string>): Option<(Topology, nat)> {
    if segments == [] then Some((BARE, 0))
    else
      var r := AddSegments(segments[..|segments| - 1]);
      if r.None? then None
      else
        var (t, node) := r.value;
        var more := AddElements(t, node, Split(segments[|segments| - 1], ','), true);
        if more.None? then None else Some((more.value.0, if more.value.1 then node + 1 else node))
  }

  function ParseConfig(s: string): Option<Topology> {
    var r := AddSegments(Split(s, ':'));
    if r.None? || r.value.1 == 0 then None else Some(r.value.0)
  }

  // ----- every parsed topology is sound -----

  /** Adding to the next node leaves the others alone, and makes that node at the first index. */
  predicate Extends(t: Topology, t': Topology, seen: bool) {
    if seen then
      && |t'.nodes| == |t.nodes| + 1 && t'.nodes[..|t.nodes|] == t.nodes && t'.nodes[|t.nodes|] != []
    else t' == t
  }

  lemma AddExtends(t0: Topology, t: Topology, seen: bool, cpu: nat)
    requires Consistent(t) && Extends(t0, t, seen) && Add(t, |t0.nodes|, cpu).Some?
    ensures Consistent(Add(t, |t0.nodes|, cpu).value) && Extends(t0, Add(t, |t0.nodes|, cpu).value, true)
  {
    AddConsistent(t, |t0.nodes|, cpu);
    var node := |t0.nodes|;
    var nodes := Padded(t.nodes, node);
    InsertedFull(nodes[node], cpu);
    hide Consistent, Inserted;
    assert nodes[node := Inserted(nodes[node], cpu)][..node] == t0.nodes by {
      assert !seen ==> t.nodes == t0.nodes;
      assert seen ==> t.nodes[..node] == t0.nodes;
      assert nodes[..node] == t.nodes[..node];
      assert t0.nodes[..node] == t0.nodes;
    }
  }

  lemma InsertedFull(cpus: seq<nat>, cpu: nat)
    ensures Inserted(cpus, cpu) != []
  {
  }

  lemma {:induction false} RangeExtends(t0: Topology, t: Topology, seen: bool, lo: nat, hi: nat)
    requires Consistent(t) && Extends(t0, t, seen) && AddRange(t, |t0.nodes|, lo, hi).Some?
    ensures var t' := AddRange(t, |t0.nodes|, lo, hi).value; Consistent(t') && Extends(t0, t', seen || lo <= hi)
    decreases if lo <= hi then hi + 1 - lo else 0
  {
    if lo <= hi {
      AddExtends(t0, t, seen, lo);
      hide Consistent, Extends, Add;
      RangeExtends(t0, Add(t, |t0.nodes|, lo).value, true, lo + 1, hi);
    }
  }

  lemma {:induction false} ElementsExtend(t0: Topology, parts: seq<string>, strict: bool)
    requires Consistent(t0) && AddElements(t0, |t0.nodes|, parts, strict).Some?
    ensures var r := AddElements(t0, |t0.nodes|, parts, strict).value; Consistent(r.0) && Extends(t0, r.0, r.1)
  {
    hide Consistent, AddRange, ParseElement;
    if parts != [] {
      ElementsExtend(t0, parts[..|parts| - 1], strict);
      var (t, seen) := AddElements(t0, |t0.nodes|, parts[..|parts| - 1], strict).value;
      var range := ParseElement(parts[|parts| - 1]);
      hide Extends;
      if parts[|parts| - 1] != "" && range.Some? {
        RangeExtends(t0, t, seen, range.value.0, range.value.1);
      }
    }
  }

  lemma {:induction false} SegmentsSound(segments: seq<string>)
    requires AddSegments(segments).Some?
    ensures var (t, node) := AddSegments(segments).value; Consistent(t) && |t.nodes| == node && NoneEmpty(t.nodes)
  {
    if segments != [] {
      SegmentsSound(segments[..|segments| - 1]);
      var (t, node) := AddSegments(segments[..|segments| - 1]).value;
      var more := AddElements(t, node, Split(segments[|segments| - 1], ','), true);
      hide Consistent, AddElements, Split, NoneEmpty, Extends;
      ElementsExtend(t, Split(segments[|segments| - 1], ','), true);
      ExtendsNoneEmpty(t, more.value.0, more.value.1);
    }
  }

  lemma ExtendsNoneEmpty(t: Topology, t': Topology, seen: bool)
    requires NoneEmpty(t.nodes) && Extends(t, t', seen)
    ensures NoneEmpty(t'.nodes) && |t'.nodes| == if seen then |t.nodes| + 1 else |t.nodes|
  {
    assert seen ==> forall n :: 0 <= n < |t.nodes| ==> t'.nodes[n] == t'.nodes[..|t.nodes|][n];
  }

  /** A policy that is accepted names at least one node and leaves none empty. */
  lemma ParsedSound(s: string)
    ensures ParseConfig(s).Some? ==>
              var t := ParseConfig(s).value; Consistent(t) && |t.nodes| > 0 && NoneEmpty(t.nodes)
  {
    hide Consistent, NoneEmpty, AddSegments, Split;
    if AddSegments(Split(s, ':')).Some? {
      SegmentsSound(Split(s, ':'));
    }
  }

  // ----- the printed form -----

  /** Where the last run of consecutive indices begins. */
  function RunStart(cpus: seq<nat>): (i: nat)
    requires cpus != []
    ensures i < |cpus|
  {
    var last := |cpus| - 1;
    if last == 0 || cpus[last] != cpus[last - 1] + 1 then last else RunStart(cpus[..last])
  }

  function Runs(cpus: seq<nat>): seq<string> {
    if cpus == [] then []
    else
      var i := RunStart(cpus);
      Runs(cpus[..i]) + [RangeText(cpus[i], cpus[|cpus| - 1])]
  }

  function NodeText(cpus: seq<nat>): string {
    var runs := Runs(cpus);
    if runs == [] then "" else Join(runs, ',')
  }

  function NodeTexts(nodes: seq<seq<nat>>): (r: seq<string>)
    ensures |r| == |nodes|
  {
    if nodes == [] then [] else NodeTexts(nodes[..|nodes| - 1]) + [NodeText(nodes[|nodes| - 1])]
  }

  function Render(nodes: seq<seq<nat>>): string {
    if nodes == [] then "" else Join(NodeTexts(nodes), ':')
  }

  // ----- the printed form reads back -----

  /** t with one more node, whose list so far is cpus. */
  function WithNode(t: Topology, cpus: seq<nat>): Topology {
    if cpus == [] then t
    else Topology(t.nodes + [cpus], map c | c in t.nodeOf.Keys + Members(cpus) :: if c in cpus then |t.nodes|
        else t.nodeOf[c])
  }

  /** cpus can be the list of a further node. */
  predicate Fits(t: Topology, cpus: seq<nat>) {
    Ascending(cpus) && forall c :: c in cpus ==> c < MAX_CPUS && c !in t.nodeOf
  }

  lemma AddNext(t: Topology, front: seq<nat>, c: nat)
    requires Fits(t, front + [c])
    ensures Add(WithNode(t, front), |t.nodes|, c) == Some(WithNode(t, front + [c]))
  {
    hide *;
    FitsLast(t, front, c);
    LastInserted(front, c);
    WithNodeMap(t, front, c);
    WithNodeList(t, front);
    WithNodeList(t, front + [c]);
    AddIs(WithNode(t, front), |t.nodes|, c);
    assert Padded(WithNode(t, front).nodes, |t.nodes|) == t.nodes + [front];
    assert (t.nodes + [front])[|t.nodes| := front + [c]] == t.nodes + [front + [c]];
  }

  lemma WithNodeList(t: Topology, cpus: seq<nat>)
    ensures WithNode(t, cpus).nodes == if cpus == [] then t.nodes else t.nodes + [cpus]
  {
  }

  lemma FitsLast(t: Topology, front: seq<nat>, c: nat)
    requires Fits(t, front + [c])
    ensures c < MAX_CPUS && c !in t.nodeOf && c !in front && forall x :: x in front ==> x < c
  {
    assert (front + [c])[|front|] == c && c in front + [c];
    forall x | x in front
      ensures x < c
    {
      var i :| 0 <= i < |front| && front[i] == x;
      assert (front + [c])[i] == x;
    }
  }

  lemma LastInserted(front: seq<nat>, c: nat)
    requires forall x :: x in front ==> x < c
    ensures Inserted(front, c) == front + [c]
  {
    assert front != [] ==> front[|front| - 1] in front;
  }

  lemma WithNodeMap(t: Topology, front: seq<nat>, c: nat)
    requires c !in front && c !in t.nodeOf
    ensures WithNode(t, front + [c]).nodeOf == WithNode(t, front).nodeOf[c := |t.nodes|]
    ensures c !in WithNode(t, front).nodeOf
  {
    assert forall x :: x in front + [c] <==> x in front || x == c;
  }

  /** The indices of a run from lo up to its last, added in turn. */
  lemma {:induction false} AddRun(t: Topology, cpus: seq<nat>, k: nat)
    requires k < |cpus| && Fits(t, cpus)
    requires forall i :: k <= i < |cpus| ==> cpus[i] == cpus[k] + (i - k)
    ensures AddRange(WithNode(t, cpus[..k]), |t.nodes|, cpus[k], cpus[|cpus| - 1]) == Some(WithNode(t, cpus))
    decreases |cpus| - k
  {
    hide *;
    FitsFront(t, cpus, k + 1);
    assert cpus[..k] + [cpus[k]] == cpus[..k + 1];
    AddNext(t, cpus[..k], cpus[k]);
    var last := |cpus| - 1;
    assert cpus[last] == cpus[k] + (last - k);
    AddRangeIs(WithNode(t, cpus[..k]), |t.nodes|, cpus[k], cpus[last]);
    AddRangeIs(WithNode(t, cpus[..k + 1]), |t.nodes|, cpus[k] + 1, cpus[last]);
    if k < last {
      assert cpus[k + 1] == cpus[k] + 1;
      AddRun(t, cpus, k + 1);
    } else {
      assert cpus[..k + 1] == cpus;
    }
  }

  /** A reversed range that passes the parser names no index at all. */
  lemma ReversedNamesNothing(t: Topology, node: nat)
    ensures ParseElement(Numeral(SIZE_MAX) + "-" + Numeral(0)) == Some((SIZE_MAX, 0)) &&
            AddRange(t, node, SIZE_MAX, 0) == Some(t)
  {
    WidestReversed();
    AddRangeIs(t, node, SIZE_MAX, 0);
  }

  lemma AddRangeIs(t: Topology, node: nat, lo: nat, hi: nat)
    ensures lo > hi ==> AddRange(t, node, lo, hi) == Some(t)
    ensures lo <= hi && Add(t, node, lo).Some? ==>
            AddRange(t, node, lo, hi) == AddRange(Add(t, node, lo).value, node, lo + 1, hi)
  {
    hide Add;
  }

  lemma FitsFront(t: Topology, cpus: seq<nat>, k: nat)
    requires k <= |cpus| && Fits(t, cpus)
    ensures Fits(t, cpus[..k])
  {
    assert forall c :: c in cpus[..k] ==> c in cpus;
  }

  lemma {:induction false} RunIsConsecutive(cpus: seq<nat>)
    requires cpus != []
    ensures forall i :: RunStart(cpus) <= i < |cpus| ==> cpus[i] == cpus[RunStart(cpus)] + (i - RunStart(cpus))
  {
    var last := |cpus| - 1;
    if last > 0 && cpus[last] == cpus[last - 1] + 1 {
      RunIsConsecutive(cpus[..last]);
      assert cpus[..last][last - 1] == cpus[last - 1];
      assert forall i :: 0 <= i < last ==> cpus[..last][i] == cpus[i];
    }
  }

  predicate Plain(parts: seq<string>, sep: char) {
    forall i :: 0 <= i < |parts| ==> sep !in parts[i]
  }

  /** Reading the runs of a list one after the other adds the list. */
  lemma {:induction false} RunsRead(t: Topology, cpus: seq<nat>)
    requires Fits(t, cpus)
    ensures AddElements(t, |t.nodes|, Runs(cpus), true) == Some((WithNode(t, cpus), cpus != []))
    ensures Plain(Runs(cpus), ',') && Plain(Runs(cpus), ':') && (cpus != [] ==> Runs(cpus) != [])
    decreases |cpus|
  {
    if cpus != [] {
      var i, last := RunStart(cpus), |cpus| - 1;
      RunIsConsecutive(cpus);
      FitsFront(t, cpus, i);
      AddRun(t, cpus, i);
      assert cpus[i] in cpus && cpus[last] in cpus && cpus[last] == cpus[i] + (last - i);
      assert Runs(cpus) == Runs(cpus[..i]) + [RangeText(cpus[i], cpus[last])];
      hide *;
      RangeParses(cpus[i], cpus[last]);
      RunsRead(t, cpus[..i]);
      var parts := Runs(cpus[..i]) + [RangeText(cpus[i], cpus[last])];
      assert parts[..|parts| - 1] == Runs(cpus[..i]);
      ElementNext(t, |t.nodes|, parts, true, WithNode(t, cpus[..i]), cpus[..i] != []);
      PlainAppended(Runs(cpus[..i]), RangeText(cpus[i], cpus[last]));
    }
  }

  lemma PlainAppended(parts: seq<string>, part: string)
    ensures forall c: char :: Plain(parts, c) && c !in part ==> Plain(parts + [part], c)
  {
  }

  lemma {:induction false} JoinPlain(parts: seq<string>, sep: char, other: char)
    requires parts != [] && Plain(parts, other) && sep != other
    ensures other !in Join(parts, sep)
  {
    if |parts| > 1 {
      JoinPlain(parts[..|parts| - 1], sep, other);
    }
  }

  lemma NodeTextReads(t: Topology, cpus: seq<nat>)
    requires Fits(t, cpus) && cpus != []
    ensures AddElements(t, |t.nodes|, Split(NodeText(cpus), ','), true) == Some((WithNode(t, cpus), true))
    ensures ':' !in NodeText(cpus)
  {
    RunsRead(t, cpus);
    SplitJoin(Runs(cpus), ',');
    JoinPlain(Runs(cpus), ',', ':');
    hide AddElements, Split, Join, Runs, Fits, WithNode;
  }

  /** The topology the node lists make, one node after the other. */
  function Assembled(nodes: seq<seq<nat>>): (t: Topology)
    ensures NoneEmpty(nodes) ==> t.nodes == nodes
  {
    if nodes == [] then BARE
    else
      assert NoneEmpty(nodes) ==> NoneEmpty(nodes[..|nodes| - 1]);
      WithNode(Assembled(nodes[..|nodes| - 1]), nodes[|nodes| - 1])
  }

  lemma {:induction false} AssembledKeys(nodes: seq<seq<nat>>)
    requires NoneEmpty(nodes)
    ensures Assembled(nodes).nodeOf.Keys == Listed(nodes)
  {
    if nodes != [] {
      var front := nodes[..|nodes| - 1];
      assert NoneEmpty(front);
      AssembledKeys(front);
    }
  }

  lemma {:induction false} AssembledMap(t: Topology, n: nat)
    requires Consistent(t) && NoneEmpty(t.nodes) && n <= |t.nodes|
    ensures Within(Assembled(t.nodes[..n]).nodeOf, t.nodeOf)
  {
    hide *;
    if n > 0 {
      AssembledMap(t, n - 1);
      NodesFull(t, n - 1);
      assert t.nodes[..n - 1] + [t.nodes[n - 1]] == t.nodes[..n];
      AssembledMore(t.nodes[..n - 1], t.nodes[n - 1]);
      forall c | c in t.nodes[n - 1]
        ensures c in t.nodeOf && t.nodeOf[c] == n - 1
      {
        CpuListed(t, n - 1, c);
      }
      WithinMore(Assembled(t.nodes[..n - 1]), t.nodes[n - 1], t.nodeOf);
    } else {
      NoneAssembled(t.nodes[..n], t.nodeOf);
    }
  }

  predicate Within(a: map<nat, nat>, b: map<nat, nat>) {
    forall c :: c in a ==> c in b && a[c] == b[c]
  }

  lemma NoneAssembled(nodes: seq<seq<nat>>, nodeOf: map<nat, nat>)
    requires nodes == []
    ensures Within(Assembled(nodes).nodeOf, nodeOf)
  {
  }

  lemma AssembledMore(nodes: seq<seq<nat>>, cpus: seq<nat>)
    requires NoneEmpty(nodes)
    ensures Assembled(nodes + [cpus]) == WithNode(Assembled(nodes), cpus) && |Assembled(nodes).nodes| == |nodes|
  {
    assert (nodes + [cpus])[..|nodes|] == nodes;
    hide WithNode;
  }

  lemma WithinMore(t: Topology, cpus: seq<nat>, nodeOf: map<nat, nat>)
    requires Within(t.nodeOf, nodeOf) && forall c :: c in cpus ==> c in nodeOf && nodeOf[c] == |t.nodes|
    ensures Within(WithNode(t, cpus).nodeOf, nodeOf)
  {
  }

  lemma NextFits(t: Topology, n: nat)
    requires Consistent(t) && NoneEmpty(t.nodes) && n < |t.nodes|
    ensures Fits(Assembled(t.nodes[..n]), t.nodes[n]) && |Assembled(t.nodes[..n]).nodes| == n
  {
    hide *;
    NodesFull(t, n);
    AssembledKeys(t.nodes[..n]);
    forall c | c in t.nodes[n]
      ensures c < MAX_CPUS && c !in Assembled(t.nodes[..n]).nodeOf
    {
      OnOneNode(t, n, c);
      CpuListed(t, n, c);
    }
    FitsAscendingUnused(Assembled(t.nodes[..n]), t.nodes[n]);
  }

  lemma FitsAscendingUnused(t: Topology, cpus: seq<nat>)
    ensures Fits(t, cpus) <==> Ascending(cpus) && forall c :: c in cpus ==> c < MAX_CPUS && c !in t.nodeOf
  {
    hide Ascending;
  }

  lemma CpuListed(t: Topology, n: nat, c: nat)
    requires Consistent(t) && n < |t.nodes| && c in t.nodes[n]
    ensures c < MAX_CPUS && c in t.nodeOf && t.nodeOf[c] == n
  {
    hide Ascending;
  }

  lemma NodesFull(t: Topology, n: nat)
    requires Consistent(t) && NoneEmpty(t.nodes) && n < |t.nodes|
    ensures NoneEmpty(t.nodes[..n]) && Ascending(t.nodes[n]) && t.nodes[n] != []
  {
    hide Ascending;
  }

  lemma {:induction false} TextsRead(t: Topology, n: nat)
    requires Consistent(t) && NoneEmpty(t.nodes) && n <= |t.nodes|
    ensures AddSegments(NodeTexts(t.nodes[..n])) == Some((Assembled(t.nodes[..n]), n))
    ensures Plain(NodeTexts(t.nodes[..n]), ':')
  {
    hide *;
    if n > 0 {
      TextsRead(t, n - 1);
      NextFits(t, n - 1);
      NodesFull(t, n - 1);
      NodeTextReads(Assembled(t.nodes[..n - 1]), t.nodes[n - 1]);
      OneMoreNode(t.nodes[..n - 1], t.nodes[n - 1]);
      assert t.nodes[..n - 1] + [t.nodes[n - 1]] == t.nodes[..n];
    } else {
      NoTexts(t.nodes[..n]);
    }
  }

  lemma NoTexts(nodes: seq<seq<nat>>)
    requires nodes == []
    ensures AddSegments(NodeTexts(nodes)) == Some((Assembled(nodes), 0)) && Plain(NodeTexts(nodes), ':')
  {
  }

  lemma OneMoreNode(nodes: seq<seq<nat>>, cpus: seq<nat>)
    requires AddSegments(NodeTexts(nodes)) == Some((Assembled(nodes), |nodes|)) && Plain(NodeTexts(nodes), ':')
    requires |Assembled(nodes).nodes| == |nodes| && ':' !in NodeText(cpus)
    requires AddElements(Assembled(nodes), |nodes|, Split(NodeText(cpus), ','), true) ==
             Some((WithNode(Assembled(nodes), cpus), true))
    ensures AddSegments(NodeTexts(nodes + [cpus])) == Some((Assembled(nodes + [cpus]), |nodes| + 1))
    ensures Plain(NodeTexts(nodes + [cpus]), ':')
  {
    var more := nodes + [cpus];
    assert more[..|more| - 1] == nodes;
    var texts := NodeTexts(more);
    assert texts == NodeTexts(nodes) + [NodeText(cpus)] && texts[..|texts| - 1] == NodeTexts(nodes);
    hide NodeText, Split, AddElements, WithNode;
  }

  /** A configuration with at least one node and none empty is read back from its own text. */
  lemma FullParses(t: Topology)
    requires Consistent(t) && NoneEmpty(t.nodes) && |t.nodes| > 0
    ensures ParseConfig(Render(t.nodes)) == Some(t)
  {
    hide *;
    var n := |t.nodes|;
    assert t.nodes[..n] == t.nodes;
    TextsRead(t, n);
    NoPartHoldsSep(NodeTexts(t.nodes), ':');
    SplitJoin(NodeTexts(t.nodes), ':');
    AssembledIs(t);
    RenderIs(t.nodes);
    ParseIs(Render(t.nodes));
  }

  lemma NoPartHoldsSep(parts: seq<string>, sep: char)
    ensures Plain(parts, sep) <==> forall i :: 0 <= i < |parts| ==> sep !in parts[i]
  {
  }

  lemma RenderIs(nodes: seq<seq<nat>>)
    requires nodes != []
    ensures Render(nodes) == Join(NodeTexts(nodes), ':')
  {
    hide Join, NodeTexts;
  }

  lemma ParseIs(s: string)
    ensures ParseConfig(s) == var r := AddSegments(Split(s, ':'));
            if r.None? || r.value.1 == 0 then None else Some(r.value.0)
  {
    hide AddSegments, Split;
  }

  lemma AssembledIs(t: Topology)
    requires Consistent(t) && NoneEmpty(t.nodes)
    ensures Assembled(t.nodes) == t
  {
    var n := |t.nodes|;
    assert t.nodes[..n] == t.nodes;
    AssembledMap(t, n);
    AssembledKeys(t.nodes);
    forall c
      ensures c in Listed(t.nodes) <==> c in t.nodeOf
    {
      ListedMembers(t.nodes, c);
    }
    hide Listed;
    assert Assembled(t.nodes).nodeOf == t.nodeOf;
  }

  /** A configuration is read back from its own text exactly when it has a node and none of its
      nodes is empty. */
  lemma RenderedParses(t: Topology)
    requires Consistent(t)
    ensures ParseConfig(Render(t.nodes)) == Some(t) <==> |t.nodes| > 0 && NoneEmpty(t.nodes)
  {
    hide *;
    ParsedSound(Render(t.nodes));
    if |t.nodes| > 0 && NoneEmpty(t.nodes) {
      FullParses(t);
    }
  }

  /** So printing is injective, and whatever a policy was written as, its printed form means the
      same. */
  lemma CanonicalForm(s: string)
    requires ParseConfig(s).Some?
    ensures ParseConfig(Render(ParseConfig(s).value.nodes)) == ParseConfig(s)
  {
    ParsedSound(s);
    RenderedParses(ParseConfig(s).value);
  }

  // ----- reading -----

  /** One more character seen: s[start..i] is always the last piece so far. */
  lemma SplitStep(s: string, sep: char, start: nat, i: nat)
    requires start <= i < |s|
    requires var r := Split(s[..i], sep); r[|r| - 1] == s[start..i]
    ensures var r, r' := Split(s[..i], sep), Split(s[..i + 1], sep);
            if s[i] == sep then r' == r + [""] && s[i + 1..i + 1] == ""
            else r'[..|r'| - 1] == r[..|r| - 1] && r'[|r'| - 1] == s[start..i + 1]
  {
    assert s[..i + 1][..i] == s[..i];
    assert s[start..i] + [s[i]] == s[start..i + 1];
  }

  lemma SplitStart(s: string, sep: char)
    ensures Split(s[..0], sep) == [s[0..0]]
  {
  }

  /** The indices of one element, in turn. A range that reaches past the last CPU is refused on
      the way, so the index never wraps. `memory` says for each CPU whether adding it finds room; a
      CPU is added once at most. */
  method AddSpan(cfg: NumaConfig, node: nat, lo: nat, hi: nat, memory: nat -> Memory) returns (ok: bool)
    requires cfg.Valid()
    modifies cfg`nodes, cfg`nodeByCpu, cfg`assignedCpus
    ensures cfg.Valid()
    ensures var r := AddRange(old(cfg.Abs()), node, lo, hi); ok ==> r.Some? && cfg.Abs() == r.value
    ensures !ok && Ample(memory) ==> AddRange(old(cfg.Abs()), node, lo, hi).None?
  {
    hide *;
    var index := lo;
    while index <= hi
      invariant cfg.Valid() && lo <= index && (lo <= hi ==> index <= hi + 1)
      invariant AddRange(cfg.Abs(), node, index, hi) == AddRange(old(cfg.Abs()), node, lo, hi)
    {
      SpanStep(cfg.Abs(), node, index, hi);
      var status := cfg.AddCpuToNode(node, index, memory(index));
      if status != AddOk {
        AmpleAt(memory, index);
        return false;
      }
      index := index + 1;
    }
    AddRangeIs(cfg.Abs(), node, index, hi);
    return true;
  }

  lemma AmpleAt(memory: nat -> Memory, c: nat)
    ensures Ample(memory) ==> memory(c) == GRANTED
  {
  }

  lemma SpanStep(t: Topology, node: nat, lo: nat, hi: nat)
    requires lo <= hi
    ensures AddRange(t, node, lo, hi) == if Add(t, node, lo).None? then None
      else AddRange(Add(t, node, lo).value, node, lo + 1, hi)
  {
    hide Add;
  }

  /** for_each_index with the sink that adds to one node. */
  method ForEachIndex(cfg: NumaConfig, node: nat, s: string, strict: bool, memory: nat -> Memory)
    returns (ok: bool, any: bool)
    requires cfg.Valid()
    modifies cfg`nodes, cfg`nodeByCpu, cfg`assignedCpus
    ensures cfg.Valid()
    ensures var r := AddElements(old(cfg.Abs()), node, Split(s, ','), strict);
            ok ==> r.Some? && cfg.Abs() == r.value.0 && any == r.value.1
    ensures !ok && Ample(memory) ==> AddElements(old(cfg.Abs()), node, Split(s, ','), strict).None?
  {
    hide *;
    ghost var t := cfg.Abs();
    any := false;
    var start := 0;
    SplitStart(s, ',');
    NoElements(t, node, strict);
    for i := 0 to |s| + 1
      invariant cfg.Valid() && start <= i
      invariant i <= |s| ==> var r := Split(s[..i], ',');
                  r[|r| - 1] == s[start..i] && AddElements(t, node, r[..|r| - 1], strict) == Some((cfg.Abs(), any))
      invariant i == |s| + 1 ==> AddElements(t, node, Split(s, ','), strict) == Some((cfg.Abs(), any))
    {
      if i < |s| {
        SplitStep(s, ',', start, i);
        if s[i] != ',' {
          continue;
        }
      }
      var element := s[start..i];
      ElementNext(t, node, Split(s[..i], ','), strict, cfg.Abs(), any);
      SplitWhole(s, i, ',');
      start := i + 1;
      if |element| == 0 {
        continue;
      }
      var range := ReadElement(element);
      if range.None? {
        if strict {
          NeverMore(t, node, s, i, strict);
          return false, any;
        }
        continue;
      }
      var added := AddSpan(cfg, node, range.value.0, range.value.1, memory);
      if !added {
        if Ample(memory) {
          NeverMore(t, node, s, i, strict);
        }
        return false, any;
      }
      any := any || range.value.0 <= range.value.1;
    }
    ok := true;
  }

  lemma NoElements(t: Topology, node: nat, strict: bool)
    ensures AddElements(t, node, [""][..0], strict) == Some((t, false))
  {
  }

  /** What the next element does to a list read so far. */
  lemma ElementNext(t: Topology, node: nat, parts: seq<string>, strict: bool, t': Topology, seen: bool)
    requires parts != [] && AddElements(t, node, parts[..|parts| - 1], strict) == Some((t', seen))
    ensures var element := parts[|parts| - 1];
            AddElements(t, node, parts, strict) ==
            if element == "" then Some((t', seen))
            else if ParseElement(element).None? then if strict then None else Some((t', seen))
            else
              var range := ParseElement(element).value;
              var r := AddRange(t', node, range.0, range.1);
              if r.None? then None else Some((r.value, seen || range.0 <= range.1))
  {
    hide ParseElement, AddRange;
  }

  lemma SplitWhole(s: string, i: nat, sep: char)
    requires i <= |s|
    ensures i == |s| ==> s[..i] == s
    ensures i < |s| && s[i] == sep ==> var r := Split(s[..i + 1], sep);
            r == Split(s[..i], sep) + [""] && r[..|r| - 1] == Split(s[..i], sep)
  {
    if i < |s| {
      assert s[..i + 1][..i] == s[..i];
    }
  }

  /** Once an element is refused the whole list is. */
  lemma NeverMore(t: Topology, node: nat, s: string, i: nat, strict: bool)
    requires i <= |s| && (i == |s| || s[i] == ',') && AddElements(t, node, Split(s[..i], ','), strict).None?
    ensures AddElements(t, node, Split(s, ','), strict).None?
  {
    hide *;
    assert s[..|s|] == s;
    if i < |s| {
      Refused(t, node, s, i, |s|, strict);
      NoneStays(t, node, Split(s, ','), strict);
    }
  }

  lemma NoneStays(t: Topology, node: nat, parts: seq<string>, strict: bool)
    requires parts != [] && AddElements(t, node, parts[..|parts| - 1], strict).None?
    ensures AddElements(t, node, parts, strict).None?
  {
    hide AddElement;
  }

  lemma SplitNext(s: string, sep: char, n: nat)
    requires n < |s|
    ensures var r, r' := Split(s[..n], sep), Split(s[..n + 1], sep);
            r'[..|r'| - 1] == if s[n] == sep then r else r[..|r| - 1]
  {
    assert s[..n + 1][..n] == s[..n];
  }

  lemma {:induction false} Refused(t: Topology, node: nat, s: string, i: nat, n: nat, strict: bool)
    requires i < n <= |s| && s[i] == ',' && AddElements(t, node, Split(s[..i], ','), strict).None?
    ensures var r := Split(s[..n], ','); AddElements(t, node, r[..|r| - 1], strict).None?
  {
    hide *;
    SplitNext(s, ',', n - 1);
    if i < n - 1 {
      Refused(t, node, s, i, n - 1, strict);
      NoneStays(t, node, Split(s[..n - 1], ','), strict);
    }
  }

  // ----- a whole policy -----

  lemma NoSegments()
    ensures AddSegments([""][..0]) == Some((BARE, 0))
  {
  }

  lemma SegmentNext(segments: seq<string>, t: Topology, node: nat)
    requires segments != [] && AddSegments(segments[..|segments| - 1]) == Some((t, node))
    ensures var more := AddElements(t, node, Split(segments[|segments| - 1], ','), true);
            AddSegments(segments) == if more.None? then None
              else Some((more.value.0, if more.value.1 then node + 1 else node))
  {
    hide AddElements, Split;
  }

  lemma NoneSegments(segments: seq<string>)
    requires segments != [] && AddSegments(segments[..|segments| - 1]).None?
    ensures AddSegments(segments).None?
  {
    hide AddElements, Split;
  }

  lemma {:induction false} RefusedSegments(s: string, i: nat, n: nat)
    requires i < n <= |s| && s[i] == ':' && AddSegments(Split(s[..i], ':')).None?
    ensures var r := Split(s[..n], ':'); AddSegments(r[..|r| - 1]).None?
  {
    hide *;
    SplitNext(s, ':', n - 1);
    if i < n - 1 {
      RefusedSegments(s, i, n - 1);
      NoneSegments(Split(s[..n - 1], ':'));
    }
  }

  lemma NoMoreSegments(s: string, i: nat)
    requires i <= |s| && (i == |s| || s[i] == ':') && AddSegments(Split(s[..i], ':')).None?
    ensures AddSegments(Split(s, ':')).None?
  {
    hide *;
    assert s[..|s|] == s;
    if i < |s| {
      RefusedSegments(s, i, |s|);
      NoneSegments(Split(s, ':'));
    }
  }

  /** numa_config_from_string. */
  method FromString(s: string, memory: nat -> Memory) returns (r: Option<NumaConfig>)
    ensures r.Some? ==> ParseConfig(s).Some?
    ensures r.Some? ==>
            fresh(r.value) && r.value.Valid() && r.value.Abs() == ParseConfig(s).value && r.value.customAffinity
    ensures r.None? && Ample(memory) ==> ParseConfig(s).None?
  {
    hide *;
    var cfg := new NumaConfig();
    var node, start := 0, 0;
    SplitStart(s, ':');
    NoSegments();
    ParseIs(s);
    for i := 0 to |s| + 1
      invariant cfg.Valid() && fresh(cfg) && start <= i
      invariant i <= |s| ==> var r := Split(s[..i], ':');
                  r[|r| - 1] == s[start..i] && AddSegments(r[..|r| - 1]) == Some((cfg.Abs(), node))
      invariant i == |s| + 1 ==> AddSegments(Split(s, ':')) == Some((cfg.Abs(), node))
    {
      if i < |s| {
        SplitStep(s, ':', start, i);
        if s[i] != ':' {
          continue;
        }
      }
      SegmentNext(Split(s[..i], ':'), cfg.Abs(), node);
      SplitWhole(s, i, ':');
      var ok, any := ForEachIndex(cfg, node, s[start..i], true, memory);
      if !ok {
        if Ample(memory) {
          NoMoreSegments(s, i);
        }
        return None;
      }
      start := i + 1;
      if any {
        node := node + 1;
      }
    }
    if node == 0 {
      return None;
    }
    cfg.customAffinity := true;
    return Some(cfg);
  }

  // ----- printing -----

  /** cpus[i..j] are consecutive, and cpus[i] does not continue what stands before it. */
  predicate RunAt(cpus: seq<nat>, i: nat, j: nat)
    requires i <= j < |cpus|
  {
    && (forall k :: i <= k <= j ==> cpus[k] == cpus[i] + (k - i))
    && (i > 0 ==> cpus[i] != cpus[i - 1] + 1)
  }

  lemma {:induction false} RunStartIs(cpus: seq<nat>, i: nat, j: nat)
    requires i <= j < |cpus| && RunAt(cpus, i, j)
    ensures RunStart(cpus[..j + 1]) == i
    decreases j - i
  {
    var front := cpus[..j + 1];
    if i < j {
      assert cpus[j] == cpus[j - 1] + 1;
      RunStartIs(cpus, i, j - 1);
      assert front[..j] == cpus[..j];
    }
  }

  lemma RunAppended(cpus: seq<nat>, i: nat, j: nat)
    requires i <= j < |cpus| && RunAt(cpus, i, j)
    ensures NodeText(cpus[..j + 1]) == NodeText(cpus[..i]) + (if i == 0 then "" else ",") + RangeText(cpus[i], cpus[j])
  {
    RunStartIs(cpus, i, j);
    assert cpus[..j + 1][..i] == cpus[..i];
    assert Runs(cpus[..j + 1]) == Runs(cpus[..i]) + [RangeText(cpus[i], cpus[j])];
    assert i > 0 <==> Runs(cpus[..i]) != [];
    hide RangeText, RunStart, Runs, Join;
    JoinMore(Runs(cpus[..i]), RangeText(cpus[i], cpus[j]));
  }

  lemma JoinMore(runs: seq<string>, run: string)
    ensures Join(runs + [run], ',') == if runs == [] then run else Join(runs, ',') + "," + run
  {
    assert (runs + [run])[..|runs|] == runs;
  }

  lemma NodeAppended(nodes: seq<seq<nat>>, n: nat)
    requires n < |nodes|
    ensures Render(nodes[..n + 1]) == Render(nodes[..n]) + (if n == 0 then "" else ":") + NodeText(nodes[n])
  {
    var front, more := nodes[..n], nodes[..n + 1];
    assert more[..n] == front;
    var texts := NodeTexts(more);
    assert texts == NodeTexts(front) + [NodeText(nodes[n])] && texts[..n] == NodeTexts(front);
    hide NodeText;
  }

  /** The inner loop of numa_config_to_string: one node's runs, comma-separated. */
  method AppendRuns(buf0: string, cpus: seq<nat>) returns (buf: string)
    ensures buf == buf0 + NodeText(cpus)
  {
    hide *;
    buf := buf0;
    NoRuns(cpus);
    var i := 0;
    while i < |cpus|
      invariant i <= |cpus| && buf == buf0 + NodeText(cpus[..i])
      invariant 0 < i < |cpus| ==> cpus[i] != cpus[i - 1] + 1
    {
      var j := i;
      while j + 1 < |cpus| && cpus[j + 1] == cpus[j] + 1
        invariant i <= j < |cpus| && forall k :: i <= k <= j ==> cpus[k] == cpus[i] + (k - i)
      {
        j := j + 1;
      }
      RunAtIs(cpus, i, j);
      RunAppended(cpus, i, j);
      var segment := "";
      if i != 0 {
        segment := ",";
      }
      Joined(buf0, NodeText(cpus[..i]), segment, RangeText(cpus[i], cpus[j]));
      RangeTextIs(cpus[i], cpus[j]);
      if j == i {
        segment := segment + Numeral(cpus[i]);
      } else {
        segment := segment + (Numeral(cpus[i]) + "-" + Numeral(cpus[j]));
      }
      buf := buf + segment;
      i := j + 1;
    }
    assert cpus[..|cpus|] == cpus;
  }

  lemma RunAtIs(cpus: seq<nat>, i: nat, j: nat)
    requires i <= j < |cpus|
    ensures RunAt(cpus, i, j) <==>
              && (forall k :: i <= k <= j ==> cpus[k] == cpus[i] + (k - i))
              && (i > 0 ==> cpus[i] != cpus[i - 1] + 1)
  {
  }

  lemma Joined(a: string, b: string, c: string, d: string)
    ensures a + (b + c + d) == a + b + (c + d)
  {
  }

  /** numa_config_to_string. */
  method ToString(cfg: NumaConfig) returns (buf: string)
    ensures buf == Render(cfg.nodes)
  {
    hide *;
    buf := "";
    EmptyTexts(cfg.nodes);
    for node := 0 to |cfg.nodes|
      invariant buf == Render(cfg.nodes[..node])
    {
      NodeAppended(cfg.nodes, node);
      if node != 0 {
        buf := buf + ":";
      }
      buf := AppendRuns(buf, cfg.nodes[node]);
    }
    assert cfg.nodes[..|cfg.nodes|] == cfg.nodes;
  }

  lemma EmptyTexts(nodes: seq<seq<nat>>)
    ensures Render(nodes[..0]) == ""
  {
  }

  lemma NoRuns(cpus: seq<nat>)
    ensures NodeText(cpus[..0]) == ""
  {
  }

  // ----- an example -----

  /** The NUMA policy "0-2,8:3" puts CPUs 0, 1, 2 and 8 on the first node and CPU 3 on the second. */
  lemma TwoNodes()
    ensures ParseConfig("0-2,8:3") ==
            Some(Topology([[0, 1, 2, 8], [3]], map[0 := 0, 1 := 0, 2 := 0, 8 := 0, 3 := 1]))
  {
    hide *;
    TwoNodesText();
    TwoNodesStand();
    RenderedParses(TwoTopology());
  }

  function TwoTopology(): Topology {
    Topology([[0, 1, 2, 8], [3]], map[0 := 0, 1 := 0, 2 := 0, 8 := 0, 3 := 1])
  }

  lemma TwoNodesStand()
    ensures Consistent(TwoTopology()) && |TwoTopology().nodes| == 2 && NoneEmpty(TwoTopology().nodes)
    ensures TwoTopology().nodes == [[0, 1, 2, 8], [3]]
    ensures TwoTopology() == Topology([[0, 1, 2, 8], [3]], map[0 := 0, 1 := 0, 2 := 0, 8 := 0, 3 := 1])
  {
  }

  lemma TwoNodesText()
    ensures Render([[0, 1, 2, 8], [3]]) == "0-2,8:3"
  {
    var first: seq<nat> := [0, 1, 2, 8];
    FirstRuns();
    assert Numeral(3) == "3" && Numeral(8) == "8" && Numeral(0) == "0" && Numeral(2) == "2";
    assert Runs([3]) == [RangeText(3, 3)];
    hide Numeral, Runs, RunStart;
    assert NodeText(first) == "0-2,8";
    assert NodeText([3]) == "3";
    assert [first, [3]][..1] == [first];
    assert NodeTexts([first]) == [NodeText(first)];
    assert NodeTexts([first, [3]]) == [NodeText(first), NodeText([3])];
  }

  lemma FirstRuns()
    ensures Runs([0, 1, 2, 8]) == [RangeText(0, 2), RangeText(8, 8)]
  {
    var first: seq<nat> := [0, 1, 2, 8];
    assert RunStart(first) == 3;
    assert first[..3] == [0, 1, 2];
    var run: seq<nat> := [0, 1, 2];
    assert run[..2] == [0, 1] && run[..2][..1] == [0];
    assert RunStart([0, 1]) == 0;
    assert RunStart(run) == 0;
    assert run[..0] == [];
    assert Runs(run) == [RangeText(0, 2)];
  }

  /** The last CPU that can be named is 65535. */
  lemma LastCpu(node: nat)
    ensures Add(BARE, node, 65535).Some? && Add(BARE, node, 65536) == None
  {
  }

  /** A range may name 2^20 indices and no more. */
  lemma RangeCap(lo: nat, hi: nat)
    requires lo < hi <= SIZE_MAX
    ensures ParseElement(RangeText(lo, hi)).Some? <==> hi - lo < 1048576
  {
    RangeTextIs(lo, hi);
    NumeralParses(lo);
    NumeralParses(hi);
    NumeralPlain(lo);
    NumeralPlain(hi);
    RangeElement(Numeral(lo), Numeral(hi));
    hide Numeral, ParseUint, ParseElement, RangeText;
  }
}
