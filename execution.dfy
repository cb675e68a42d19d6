/**
 * Task input assembly: the edges from a node's parents become positional
 * arguments (ordered by `arg_index`, stably) and keyword arguments (keyed
 * by `edge_name`, the last edge of a name winning), and each is then
 * replaced by its parent's output.
 *
 * The transport graph is given as its answer for the node: each parent
 * with the data of its edges into the node, in the order the graph
 * reports them.
 */
module Execution {
  import opened Wrappers
  import opened DataManager
  import opened Runner

  /** An edge's `param_type`. */
  datatype ParamType = ArgParam | KwargParam | OtherParam(name: string)

  /** The data the transport graph keeps on an edge. */
  datatype EdgeData = EdgeData(waitFor: bool, paramType: ParamType, argIndex: int, edgeName: string)

  /** A parent of the node with the data of every edge from it into the node. */
  datatype Dependency = Dependency(parent: NodeId, edges: seq<EdgeData>)

  /** An edge together with the parent it comes from. */
  type ParentEdge = (NodeId, EdgeData)

  /** A positional entry before sorting: `(parent, arg_index)`. */
  type ArgEntry = (NodeId, int)

  /** The edges of one parent, in order. */
  function ParentEdges(d: Dependency): (r: seq<ParentEdge>)
    ensures |r| == |d.edges|
    ensures forall j :: 0 <= j < |d.edges| ==> r[j] == (d.parent, d.edges[j])
  {
    seq(|d.edges|, j requires 0 <= j < |d.edges| => (d.parent, d.edges[j]))
  }

  /** Every edge into the node, parent by parent, in the order the loops visit them. */
  function Flatten(deps: seq<Dependency>): seq<ParentEdge> {
    if deps == [] then [] else Flatten(deps[..|deps| - 1]) + ParentEdges(deps[|deps| - 1])
  }

  predicate IsArgEdge(e: EdgeData) {
    !e.waitFor && e.paramType == ArgParam
  }

  predicate IsKwargEdge(e: EdgeData) {
    !e.waitFor && e.paramType == KwargParam
  }

  /** The positional entries, in edge order. */
  function ArgEntries(edges: seq<ParentEdge>): (r: seq<ArgEntry>)
    ensures |r| <= |edges|
  {
    if edges == [] then []
    else
      (if IsArgEdge(edges[0].1) then [(edges[0].0, edges[0].1.argIndex)] else [])
      + ArgEntries(edges[1..])
  }

  /** One edge's effect on the keyword map: a keyword edge (over)writes its name. */
  function KwargStep(kwargs: map<string, NodeId>, e: ParentEdge): map<string, NodeId> {
    if IsKwargEdge(e.1) then kwargs[e.1.edgeName := e.0] else kwargs
  }

  /** The keyword map after the edges, starting from `kwargs`. */
  function KwargFold(kwargs: map<string, NodeId>, edges: seq<ParentEdge>): map<string, NodeId>
    decreases |edges|
  {
    if edges == [] then kwargs else KwargFold(KwargStep(kwargs, edges[0]), edges[1..])
  }

  /** The names of the keyword edges. */
  function KwargNames(edges: seq<ParentEdge>): set<string> {
    set i | 0 <= i < |edges| && IsKwargEdge(edges[i].1) :: edges[i].1.edgeName
  }

  lemma {:induction false} ArgEntriesAppend(a: seq<ParentEdge>, b: seq<ParentEdge>)
    ensures ArgEntries(a + b) == ArgEntries(a) + ArgEntries(b)
    decreases |a|
  {
    if a == [] {
      assert a + b == b;
    } else {
      var head := if IsArgEdge(a[0].1) then [(a[0].0, a[0].1.argIndex)] else [];
      calc {
        ArgEntries(a + b);
      == { assert (a + b)[0] == a[0] && (a + b)[1..] == a[1..] + b; }
        head + ArgEntries(a[1..] + b);
      == { ArgEntriesAppend(a[1..], b); }
        head + (ArgEntries(a[1..]) + ArgEntries(b));
      }
    }
  }

  lemma {:induction false} KwargFoldAppend(m: map<string, NodeId>, a: seq<ParentEdge>, b: seq<ParentEdge>)
    ensures KwargFold(m, a + b) == KwargFold(KwargFold(m, a), b)
    decreases |a|
  {
    if a == [] {
      assert a + b == b;
    } else {
      assert (a + b)[1..] == a[1..] + b;
      KwargFoldAppend(KwargStep(m, a[0]), a[1..], b);
    }
  }

  /** The names of a sequence of edges: the first edge's, if it is a keyword edge, and the rest's. */
  lemma KwargNamesCons(edges: seq<ParentEdge>)
    requires edges != []
    ensures KwargNames(edges) == (if IsKwargEdge(edges[0].1) then {edges[0].1.edgeName} else {}) + KwargNames(edges[1..])
  {
    var rest := edges[1..];
    forall n | n in KwargNames(edges)
      ensures n in (if IsKwargEdge(edges[0].1) then {edges[0].1.edgeName} else {}) + KwargNames(rest)
    {
      var i :| 0 <= i < |edges| && IsKwargEdge(edges[i].1) && edges[i].1.edgeName == n;
      if i > 0 {
        assert rest[i - 1] == edges[i];
      }
    }
    forall n | n in KwargNames(rest)
      ensures n in KwargNames(edges)
    {
      var i :| 0 <= i < |rest| && IsKwargEdge(rest[i].1) && rest[i].1.edgeName == n;
      assert edges[i + 1] == rest[i];
    }
  }

  /** A name is a key of the keyword map exactly when a keyword edge carries it (or it was there). */
  lemma {:induction false} KwargFoldKeys(m: map<string, NodeId>, edges: seq<ParentEdge>)
    ensures KwargFold(m, edges).Keys == m.Keys + KwargNames(edges)
    decreases |edges|
  {
    if edges != [] {
      KwargFoldKeys(KwargStep(m, edges[0]), edges[1..]);
      KwargNamesCons(edges);
    }
  }

  /**
   * The last keyword edge of a name decides that name's parent: an earlier
   * edge with the same name is overwritten.
   */
  lemma KwargLastWriter(m: map<string, NodeId>, a: seq<ParentEdge>, e: ParentEdge, b: seq<ParentEdge>)
    requires IsKwargEdge(e.1)
    requires e.1.edgeName !in KwargNames(b)
    ensures e.1.edgeName in KwargFold(m, a + [e] + b) && KwargFold(m, a + [e] + b)[e.1.edgeName] == e.0
  {
    KwargFoldAppend(m, a + [e], b);
    KwargFoldAppend(m, a, [e]);
    assert [e][1..] == [];
    KwargFoldUntouched(KwargFold(m, a + [e]), b, e.1.edgeName);
  }

  /** Edges that do not carry a name leave its entry as it was. */
  lemma {:induction false} KwargFoldUntouched(m: map<string, NodeId>, edges: seq<ParentEdge>, name: string)
    requires name in m && name !in KwargNames(edges)
    ensures name in KwargFold(m, edges) && KwargFold(m, edges)[name] == m[name]
    decreases |edges|
  {
    if edges != [] {
      KwargNamesCons(edges);
      KwargFoldUntouched(KwargStep(m, edges[0]), edges[1..], name);
    }
  }

  /**
   * A `wait_for` edge, or one whose parameter type is neither `arg` nor
   * `kwarg`, contributes no argument of either kind.
   */
  lemma IgnoredEdge(m: map<string, NodeId>, a: seq<ParentEdge>, e: ParentEdge, b: seq<ParentEdge>)
    requires e.1.waitFor || e.1.paramType.OtherParam?
    ensures ArgEntries(a + [e] + b) == ArgEntries(a + b)
    ensures KwargFold(m, a + [e] + b) == KwargFold(m, a + b)
  {
    ArgEntriesAppend(a + [e], b);
    ArgEntriesAppend(a, [e]);
    ArgEntriesAppend(a, b);
    assert [e][1..] == [];
    KwargFoldAppend(m, a + [e], b);
    KwargFoldAppend(m, a, [e]);
    KwargFoldAppend(m, a, b);
  }

  /** When every edge is a positional one, there is one entry per edge, in edge order. */
  lemma {:induction false} ArgEntriesAllArgs(edges: seq<ParentEdge>)
    requires forall i :: 0 <= i < |edges| ==> IsArgEdge(edges[i].1)
    ensures |ArgEntries(edges)| == |edges|
    ensures forall i :: 0 <= i < |edges| ==> ArgEntries(edges)[i] == (edges[i].0, edges[i].1.argIndex)
    decreases |edges|
  {
    if edges != [] {
      ArgEntriesAllArgs(edges[1..]);
    }
  }

  /** Nondecreasing by `arg_index`. */
  predicate SortedByIndex(s: seq<ArgEntry>) {
    forall i, j :: 0 <= i < j < |s| ==> s[i].1 <= s[j].1
  }

  /** The entries with a given `arg_index`, in order. */
  function WithIndex(s: seq<ArgEntry>, k: int): seq<ArgEntry> {
    if s == [] then [] else (if s[0].1 == k then [s[0]] else []) + WithIndex(s[1..], k)
  }

  /** Inserts `x` into sorted `s` before the first entry whose index is not smaller. */
  function Insert(s: seq<ArgEntry>, x: ArgEntry): (r: seq<ArgEntry>)
    ensures multiset(r) == multiset(s) + multiset{x}
  {
    if s == [] || x.1 <= s[0].1 then [x] + s
    else
      assert s == [s[0]] + s[1..];
      [s[0]] + Insert(s[1..], x)
  }

  /** `sorted(..., key=lambda x: x[1])`: a stable sort by `arg_index`. */
  function SortByIndex(s: seq<ArgEntry>): (r: seq<ArgEntry>)
    ensures |r| == |s|
    ensures multiset(r) == multiset(s)
  {
    if s == [] then []
    else
      assert s == [s[0]] + s[1..];
      var r := Insert(SortByIndex(s[1..]), s[0]);
      assert |multiset(r)| == |multiset(s)|;
      r
  }

  lemma {:induction false} InsertSorted(s: seq<ArgEntry>, x: ArgEntry)
    requires SortedByIndex(s)
    ensures SortedByIndex(Insert(s, x))
    decreases |s|
  {
    if s != [] && x.1 > s[0].1 {
      InsertSorted(s[1..], x);
      var r := Insert(s[1..], x);
      forall e | e in r
        ensures s[0].1 <= e.1
      {
        assert e in multiset(r);
        if e != x {
          assert e in multiset(s[1..]);
          var j :| 0 <= j < |s[1..]| && s[1..][j] == e;
          assert s[j + 1] == e;
        }
      }
    }
  }

  /** `WithIndex` of a sequence with a given first entry. */
  lemma WithIndexCons(e: ArgEntry, t: seq<ArgEntry>, k: int)
    ensures WithIndex([e] + t, k) == (if e.1 == k then [e] else []) + WithIndex(t, k)
  {
    assert ([e] + t)[1..] == t;
  }

  lemma {:induction false} InsertWithIndex(s: seq<ArgEntry>, x: ArgEntry, k: int)
    ensures WithIndex(Insert(s, x), k) == (if x.1 == k then [x] else []) + WithIndex(s, k)
    decreases |s|
  {
    if s != [] && x.1 > s[0].1 {
      var rest := Insert(s[1..], x);
      InsertWithIndex(s[1..], x, k);
      WithIndexCons(s[0], rest, k);
      assert s == [s[0]] + s[1..];
      WithIndexCons(s[0], s[1..], k);
      if x.1 == k {
        assert WithIndex(Insert(s, x), k) == [x] + WithIndex(s[1..], k);
      } else {
        assert WithIndex(Insert(s, x), k) == WithIndex(s, k);
      }
    } else {
      WithIndexCons(x, s, k);
    }
  }

  /** The sort orders the entries by `arg_index`. */
  lemma {:induction false} SortByIndexSorted(s: seq<ArgEntry>)
    ensures SortedByIndex(SortByIndex(s))
    decreases |s|
  {
    if s != [] {
      SortByIndexSorted(s[1..]);
      InsertSorted(SortByIndex(s[1..]), s[0]);
    }
  }

  /** The sort is stable: the entries of each index keep their relative order. */
  lemma {:induction false} SortByIndexStable(s: seq<ArgEntry>, k: int)
    ensures WithIndex(SortByIndex(s), k) == WithIndex(s, k)
    decreases |s|
  {
    if s != [] {
      SortByIndexStable(s[1..], k);
      SortByIndexSorted(s[1..]);
      InsertWithIndex(SortByIndex(s[1..]), s[0], k);
    }
  }

  /** `[x[0] for x in sorted_args]`. */
  function Parents(s: seq<ArgEntry>): (r: seq<NodeId>)
    ensures |r| == |s| && forall i :: 0 <= i < |s| ==> r[i] == s[i].0
  {
    seq(|s|, i requires 0 <= i < |s| => s[i].0)
  }

  lemma ParentsAppend(a: seq<ArgEntry>, b: seq<ArgEntry>)
    ensures Parents(a + b) == Parents(a) + Parents(b)
  {
  }

  /** Reordering the entries reorders their parents the same way. */
  lemma {:induction false} ParentsPermutation(a: seq<ArgEntry>, b: seq<ArgEntry>)
    requires multiset(a) == multiset(b)
    ensures multiset(Parents(a)) == multiset(Parents(b))
    decreases |a|
  {
    if a == [] {
      assert |b| == |multiset(b)| == 0;
    } else {
      var x := a[0];
      assert x in multiset(b);
      var j :| 0 <= j < |b| && b[j] == x;
      var rest := b[..j] + b[j + 1..];
      assert b == b[..j] + [x] + b[j + 1..];
      assert a == [x] + a[1..];
      assert multiset(b) == multiset(b[..j]) + multiset{x} + multiset(b[j + 1..]);
      assert multiset(a) == multiset{x} + multiset(a[1..]);
      assert multiset(rest) == multiset(b[..j]) + multiset(b[j + 1..]);
      calc {
        multiset(a[1..]);
        multiset(a) - multiset{x};
        multiset(b) - multiset{x};
        multiset(rest);
      }
      ParentsPermutation(a[1..], rest);
      ParentsAppend([x], a[1..]);
      ParentsAppend(b[..j] + [x], b[j + 1..]);
      ParentsAppend(b[..j], [x]);
      ParentsAppend(b[..j], b[j + 1..]);
    }
  }

  /** The abstract inputs `_get_task_inputs` derives from the node's edges. */
  function AbstractInputsOf(deps: seq<Dependency>): (abs: AbstractInputs)
    ensures |abs.args| == |ArgEntries(Flatten(deps))|
    ensures multiset(abs.args) == multiset(Parents(ArgEntries(Flatten(deps))))
    ensures abs.kwargs.Keys == KwargNames(Flatten(deps))
  {
    var edges := Flatten(deps);
    KwargFoldKeys(map[], edges);
    ParentsPermutation(SortByIndex(ArgEntries(edges)), ArgEntries(edges));
    AbstractInputs(Parents(SortByIndex(ArgEntries(edges))), KwargFold(map[], edges))
  }

  /** The edge loops of `_get_task_inputs`: positional entries unsorted, keyword map built up. */
  method CollectAbstractInputs(deps: seq<Dependency>) returns (args: seq<ArgEntry>, kwargs: map<string, NodeId>)
    ensures args == ArgEntries(Flatten(deps))
    ensures kwargs == KwargFold(map[], Flatten(deps))
  {
    args := [];
    kwargs := map[];
    for i := 0 to |deps|
      invariant args == ArgEntries(Flatten(deps[..i]))
      invariant kwargs == KwargFold(map[], Flatten(deps[..i]))
    {
      var parent := deps[i].parent;
      var edges := deps[i].edges;
      ghost var done := Flatten(deps[..i]);
      assert done + ParentEdges(deps[i])[..0] == done;
      for j := 0 to |edges|
        invariant args == ArgEntries(done + ParentEdges(deps[i])[..j])
        invariant kwargs == KwargFold(map[], done + ParentEdges(deps[i])[..j])
      {
        var d := edges[j];
        ghost var next := done + ParentEdges(deps[i])[..j];
        assert done + ParentEdges(deps[i])[..j + 1] == next + [(parent, d)];
        ArgEntriesAppend(next, [(parent, d)]);
        KwargFoldAppend(map[], next, [(parent, d)]);
        if !d.waitFor {
          if d.paramType == ArgParam {
            args := args + [(parent, d.argIndex)];
          } else if d.paramType == KwargParam {
            kwargs := kwargs[d.edgeName := parent];
          }
        }
      }
      assert deps[..i + 1][..i] == deps[..i];
      assert ParentEdges(deps[i])[..|edges|] == ParentEdges(deps[i]);
    }
    assert deps[..|deps|] == deps;
  }

  /**
   * `_get_task_inputs`: the abstract inputs from the edges, then each
   * replaced by its parent's output; a fetch that raises ends the call.
   */
  method GetTaskInputs<V>(deps: seq<Dependency>, fetch: NodeId -> Result<V, string>)
    returns (r: Result<TaskInput<V>, string>)
    ensures var abs := AbstractInputsOf(deps);
      && (r.Success? <==> forall id :: id in InputNodeIds(abs) ==> fetch(id).Success?)
      && (r.Success? ==>
            && |r.value.args| == |abs.args|
            && (forall i :: 0 <= i < |abs.args| ==> fetch(abs.args[i]) == Success(r.value.args[i]))
            && r.value.kwargs.Keys == abs.kwargs.Keys
            && (forall k :: k in abs.kwargs ==> fetch(abs.kwargs[k]) == Success(r.value.kwargs[k])))
  {
    var entries, kwargs := CollectAbstractInputs(deps);
    var abs := AbstractInputs(Parents(SortByIndex(entries)), kwargs);
    var values := TaskInputValues(abs, fetch);
    if values.Failure? {
      return Failure(values.error);
    }
    assert forall id :: id in values.value ==> fetch(id) == Success(values.value[id]);
    var input := ResolveInputs(abs, values.value);
    forall i | 0 <= i < |abs.args|
      ensures fetch(abs.args[i]) == Success(input.args[i])
    {
      assert abs.args[i] in values.value;
    }
    forall k | k in abs.kwargs
      ensures fetch(abs.kwargs[k]) == Success(input.kwargs[k])
    {
      assert abs.kwargs[k] in values.value;
    }
    r := Success(input);
  }
}
