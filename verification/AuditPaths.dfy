/** scripts/audit_windows_compat.py: what the visitor finds and which guards it counts, said by
    the path from the root of the tree to the node, and what one node by itself gives rise to,
    said by the parts of its texts. */
module AuditPaths {
  import opened Text
  import opened Auditor

  /** Which child to take at each node on the way down. */
  type Path = seq<nat>

  predicate Reaches(node: Node, path: Path)
    decreases |path|
  {
    path == [] || (path[0] < |Children(node)| && Reaches(Children(node)[path[0]], path[1..]))
  }

  function NodeAt(node: Node, path: Path): Node
    requires Reaches(node, path)
    decreases |path|
  {
    if path == [] then node else NodeAt(Children(node)[path[0]], path[1..])
  }

  /** The visitor comes there: it looks into everything but the tests of `if`. */
  predicate Visited(node: Node, path: Path)
    decreases |path|
  {
    path == []
    || (path[0] < |Children(node)| && !(node.If? && path[0] == 0) && Visited(Children(node)[path[0]], path[1..]))
  }

  ghost predicate NamedAt(node: Node, path: Path) { Reaches(node, path) && NamesPlatform(NodeAt(node, path)) }

  /** The platform is named somewhere within. */
  ghost predicate NamedWithin(node: Node) { exists path :: NamedAt(node, path) }

  /** An exception that a missing module or call raises is caught, by itself or in a tuple. */
  predicate CatchesMissing(handler: Node) {
    handler.Handler? && handler.kind.Some?
    && (var kind := handler.kind.value;
        || (kind.Name? && Missing(kind.id))
        || (kind.Tuple? && exists i :: 0 <= i < |kind.elts| && kind.elts[i].Name? && Missing(kind.elts[i].id)))
  }

  predicate Missing(id: string) {
    id == "ImportError" || id == "ModuleNotFoundError" || id == "AttributeError" || id == "OSError" || id == "Exception"
  }

  /** The node guards its child: an `if` whose test names the platform guards both branches, a
      `try` with such a handler guards its body alone. */
  ghost predicate GuardsChild(node: Node, k: nat) {
    || (node.If? && NamedWithin(node.test))
    || (node.Try? && k < |node.body| && exists i :: 0 <= i < |node.handlers| && CatchesMissing(node.handlers[i]))
  }

  /** How many nodes on the way guard the next. */
  ghost function GuardsOn(node: Node, path: Path): nat
    requires Visited(node, path)
    decreases |path|
  {
    if path == [] then 0
    else (if GuardsChild(node, path[0]) then 1 else 0) + GuardsOn(Children(node)[path[0]], path[1..])
  }

  lemma {:induction false} VisitedReaches(node: Node, path: Path)
    requires Visited(node, path)
    ensures Reaches(node, path)
    decreases |path|
  {
    if path != [] { VisitedReaches(Children(node)[path[0]], path[1..]); }
  }

  /** The way ends at a node that by itself gives rise to this, and passes so many guards. */
  ghost predicate OnPath(rules: Rules, node: Node, path: Path, x: Found) {
    Visited(node, path) && EndsIn(rules, node, path, x.what) && GuardsOn(node, path) == x.guards
  }

  ghost predicate EndsIn(rules: Rules, node: Node, path: Path, what: Finding) {
    Reaches(node, path) && what in Local(rules, NodeAt(node, path))
  }

  // ---- the guards

  lemma {:induction false} PathOfName(node: Node) returns (path: Path)
    requires IsPlatformTest(node)
    ensures NamedAt(node, path)
    decreases node
  {
    if NamesPlatform(node) {
      path := [];
    } else {
      var i :| 0 <= i < |Children(node)| && IsPlatformTest(Children(node)[i]);
      var more := PathOfName(Children(node)[i]);
      path := [i] + more;
      NamedBelow(node, i, more);
    }
  }

  lemma NamedBelow(node: Node, i: nat, path: Path)
    requires i < |Children(node)| && NamedAt(Children(node)[i], path)
    ensures NamedAt(node, [i] + path)
  {
    PathCons(i, path);
  }

  lemma {:induction false} NameOfPath(node: Node, path: Path)
    requires NamedAt(node, path)
    ensures IsPlatformTest(node)
    decreases |path|
  {
    if path != [] { NameOfPath(Children(node)[path[0]], path[1..]); }
  }

  lemma PlatformTestExactly(node: Node)
    ensures IsPlatformTest(node) <==> NamedWithin(node)
  {
    if IsPlatformTest(node) { var path := PathOfName(node); }
    if NamedWithin(node) {
      var path :| NamedAt(node, path);
      NameOfPath(node, path);
    }
  }

  lemma PathCons(i: nat, path: Path)
    ensures ([i] + path)[0] == i && ([i] + path)[1..] == path && |[i] + path| > |path|
  {
  }

  lemma HandlesExactly(handlers: seq<Node>)
    ensures Handles(handlers) <==> exists i :: 0 <= i < |handlers| && CatchesMissing(handlers[i])
  {
    forall i | 0 <= i < |handlers|
      ensures Catches(handlers[i]) <==> CatchesMissing(handlers[i])
    {
      CatchesExactly(handlers[i]);
    }
  }

  lemma CatchesExactly(handler: Node)
    ensures Catches(handler) <==> CatchesMissing(handler)
  {
  }

  lemma GuardIs(node: Node, k: nat)
    ensures node.If? ==> (GuardsChild(node, k) <==> IsPlatformTest(node.test))
    ensures node.Try? && k < |node.body| ==> (GuardsChild(node, k) <==> Handles(node.handlers))
    ensures !node.If? && !(node.Try? && k < |node.body|) ==> !GuardsChild(node, k)
  {
    if node.If? { PlatformTestExactly(node.test); }
    if node.Try? { HandlesExactly(node.handlers); }
  }

  // ---- what is found

  predicate FoundIn(rules: Rules, nodes: seq<Node>, i: nat, x: Found) { i < |nodes| && x in Occurrences(rules, nodes[i]) }

  lemma {:induction false} IndexOfFound(rules: Rules, owner: Node, nodes: seq<Node>, x: Found) returns (i: nat)
    requires Below(nodes, owner) && x in OccurrencesIn(rules, owner, nodes)
    ensures FoundIn(rules, nodes, i, x)
    decreases |nodes|
  {
    if x in Occurrences(rules, nodes[0]) {
      i := 0;
    } else {
      var j := IndexOfFound(rules, owner, nodes[1..], x);
      i := j + 1;
    }
  }

  lemma {:induction false} FoundOfIndex(rules: Rules, owner: Node, nodes: seq<Node>, x: Found, i: nat)
    requires Below(nodes, owner) && FoundIn(rules, nodes, i, x)
    ensures x in OccurrencesIn(rules, owner, nodes)
    decreases |nodes|
  {
    if i > 0 { FoundOfIndex(rules, owner, nodes[1..], x, i - 1); }
  }

  lemma InAround(guard: bool, found: seq<Found>, x: Found)
    ensures x in Around(guard, found) <==>
              (guard ==> x.guards >= 1) && Found(x.what, if guard && x.guards >= 1 then x.guards - 1 else x.guards) in found
  {
    var all := Around(guard, found);
    if x in all {
      var i :| 0 <= i < |all| && all[i] == x;
      assert found[i] == Found(x.what, x.guards - One(guard));
    }
    if (guard ==> x.guards >= 1) && Found(x.what, if guard && x.guards >= 1 then x.guards - 1 else x.guards) in found {
      var i :| 0 <= i < |found| && found[i] == Found(x.what, if guard && x.guards >= 1 then x.guards - 1 else x.guards);
      assert all[i] == x;
    }
  }

  lemma InBare(findings: seq<Finding>, x: Found)
    ensures x in Bare(findings) <==> x.what in findings && x.guards == 0
  {
    if x.what in findings && x.guards == 0 {
      var i :| 0 <= i < |findings| && findings[i] == x.what;
      assert Bare(findings)[i] == x;
    }
  }

  /** One step of a way: what is on a child's way is on the node's. */
  lemma StepDown(rules: Rules, node: Node, k: nat, path: Path, x: Found)
    requires k < |Children(node)| && !(node.If? && k == 0) && OnPath(rules, Children(node)[k], path, x)
    ensures OnPath(rules, node, [k] + path, Found(x.what, x.guards + if GuardsChild(node, k) then 1 else 0))
  {
    PathCons(k, path);
  }

  lemma {:induction false} PathOfFound(rules: Rules, node: Node, x: Found) returns (path: Path)
    requires x in Occurrences(rules, node)
    ensures OnPath(rules, node, path, x)
    decreases node, 2
  {
    match node
    case If(_, _, _) => path := PathInIf(rules, node, x);
    case Try(_, _, _, _) => path := PathInTry(rules, node, x);
    case _ => path := PathInOther(rules, node, x);
  }

  /** The way to something found in a child. */
  lemma {:induction false} PathThrough(rules: Rules, node: Node, k: nat, y: Found) returns (path: Path)
    requires FoundIn(rules, Children(node), k, y) && !(node.If? && k == 0)
    ensures OnPath(rules, node, path, Found(y.what, y.guards + if GuardsChild(node, k) then 1 else 0))
    decreases node, 0
  {
    var more := PathOfFound(rules, Children(node)[k], y);
    StepDown(rules, node, k, more, y);
    path := [k] + more;
  }

  lemma {:induction false} PathInOther(rules: Rules, node: Node, x: Found) returns (path: Path)
    requires !node.If? && !node.Try? && x in Occurrences(rules, node)
    ensures OnPath(rules, node, path, x)
    decreases node, 1
  {
    InBare(Local(rules, node), x);
    if x in Bare(Local(rules, node)) {
      path := [];
    } else {
      var i := IndexOfFound(rules, node, Children(node), x);
      GuardIs(node, i);
      path := PathThrough(rules, node, i, x);
    }
  }

  lemma {:induction false} PathInIf(rules: Rules, node: Node, x: Found) returns (path: Path)
    requires node.If? && x in Occurrences(rules, node)
    ensures OnPath(rules, node, path, x)
    decreases node, 1
  {
    var guard, nodes := IsPlatformTest(node.test), Branches(node);
    InAround(guard, OccurrencesIn(rules, node, nodes), x);
    var y := Found(x.what, if guard then x.guards - 1 else x.guards);
    var i := IndexOfFound(rules, node, nodes, y);
    assert Children(node)[i + 1] == nodes[i];
    GuardIs(node, i + 1);
    path := PathThrough(rules, node, i + 1, y);
  }

  lemma {:induction false} PathInTry(rules: Rules, node: Node, x: Found) returns (path: Path)
    requires node.Try? && x in Occurrences(rules, node)
    ensures OnPath(rules, node, path, x)
    decreases node, 1
  {
    var guard, body, rest := Handles(node.handlers), OccurrencesIn(rules, node, node.body), OccurrencesIn(rules, node, AfterTry(node));
    assert Children(node) == node.body + AfterTry(node);
    if x in Around(guard, body) {
      InAround(guard, body, x);
      var y := Found(x.what, if guard then x.guards - 1 else x.guards);
      var i := IndexOfFound(rules, node, node.body, y);
      GuardIs(node, i);
      path := PathThrough(rules, node, i, y);
    } else {
      assert x in rest;
      var i := IndexOfFound(rules, node, AfterTry(node), x);
      GuardIs(node, |node.body| + i);
      path := PathThrough(rules, node, |node.body| + i, x);
    }
  }

  lemma {:induction false} FoundOfPath(rules: Rules, node: Node, path: Path, x: Found)
    requires OnPath(rules, node, path, x)
    ensures x in Occurrences(rules, node)
    decreases |path|
  {
    if path == [] {
      InBare(Local(rules, node), x);
    } else {
      var k := path[0];
      var child := Children(node)[k];
      var y := Found(x.what, x.guards - if GuardsChild(node, k) then 1 else 0);
      assert OnPath(rules, child, path[1..], y);
      FoundOfPath(rules, child, path[1..], y);
      GuardIs(node, k);
      FoundBelow(rules, node, k, y, x);
    }
  }

  lemma FoundBelow(rules: Rules, node: Node, k: nat, y: Found, x: Found)
    requires FoundIn(rules, Children(node), k, y) && !(node.If? && k == 0)
    requires x.what == y.what && x.guards == y.guards + if GuardsChild(node, k) then 1 else 0
    ensures x in Occurrences(rules, node)
  {
    match node
    case If(_, _, _) => FoundBelowIf(rules, node, k, y, x);
    case Try(_, _, _, _) => FoundBelowTry(rules, node, k, y, x);
    case _ =>
      GuardIs(node, k);
      FoundOfIndex(rules, node, Children(node), y, k);
  }

  lemma FoundBelowIf(rules: Rules, node: Node, k: nat, y: Found, x: Found)
    requires node.If? && k > 0 && FoundIn(rules, Children(node), k, y)
    requires x.what == y.what && x.guards == y.guards + if GuardsChild(node, k) then 1 else 0
    ensures x in Occurrences(rules, node)
  {
    GuardIs(node, k);
    assert Branches(node)[k - 1] == Children(node)[k];
    FoundOfIndex(rules, node, Branches(node), y, k - 1);
    InAround(IsPlatformTest(node.test), OccurrencesIn(rules, node, Branches(node)), x);
  }

  lemma FoundBelowTry(rules: Rules, node: Node, k: nat, y: Found, x: Found)
    requires node.Try? && FoundIn(rules, Children(node), k, y)
    requires x.what == y.what && x.guards == y.guards + if GuardsChild(node, k) then 1 else 0
    ensures x in Occurrences(rules, node)
  {
    ChildOfTry(node, k);
    GuardIs(node, k);
    if k < |node.body| {
      FoundInBody(rules, node, k, y, x);
    } else {
      FoundAfterTry(rules, node, k - |node.body|, y);
    }
    TryHolds(rules, node, x);
  }

  lemma ChildOfTry(node: Node, k: nat)
    requires node.Try? && k < |Children(node)|
    ensures k < |node.body| ==> Children(node)[k] == node.body[k]
    ensures k >= |node.body| ==> k - |node.body| < |AfterTry(node)| && Children(node)[k] == AfterTry(node)[k - |node.body|]
  {
    assert Children(node) == node.body + AfterTry(node);
  }

  lemma TryHolds(rules: Rules, node: Node, x: Found)
    requires node.Try?
    requires x in Around(Handles(node.handlers), OccurrencesIn(rules, node, node.body)) || x in OccurrencesIn(rules, node, AfterTry(node))
    ensures x in Occurrences(rules, node)
  {
  }

  lemma FoundInBody(rules: Rules, node: Node, k: nat, y: Found, x: Found)
    requires node.Try? && k < |node.body| && y in Occurrences(rules, node.body[k])
    requires x.what == y.what && x.guards == y.guards + if Handles(node.handlers) then 1 else 0
    ensures x in Around(Handles(node.handlers), OccurrencesIn(rules, node, node.body))
  {
    FoundOfIndex(rules, node, node.body, y, k);
    InAround(Handles(node.handlers), OccurrencesIn(rules, node, node.body), x);
  }

  lemma FoundAfterTry(rules: Rules, node: Node, i: nat, y: Found)
    requires node.Try? && i < |AfterTry(node)| && y in Occurrences(rules, AfterTry(node)[i])
    ensures y in OccurrencesIn(rules, node, AfterTry(node))
  {
    FoundOfIndex(rules, node, AfterTry(node), y, i);
  }

  /** Found is exactly what stands at a node that the visitor comes to, with as many guards around
      it as there are on the way. */
  lemma FoundExactly(rules: Rules, tree: Node, x: Found)
    ensures x in Occurrences(rules, tree) <==> exists path :: OnPath(rules, tree, path, x)
  {
    if x in Occurrences(rules, tree) {
      var path := PathOfFound(rules, tree, x);
    }
    if path :| OnPath(rules, tree, path, x) { FoundOfPath(rules, tree, path, x); }
  }

  /** The exit code of a run: some node that the visitor comes to gives rise to a blocker, and
      nothing on the way to it guards the next. */
  lemma BlocksExactly(rules: Rules, tree: Node)
    ensures Blocks(rules, tree) <==> exists path, what :: OnPath(rules, tree, path, Found(what, 0)) && what.severity == BLOCKER
  {
    var found := Occurrences(rules, tree);
    if Blocks(rules, tree) {
      var i :| 0 <= i < |found| && Unguarded(found[i]);
      var path := PathOfFound(rules, tree, found[i]);
      assert OnPath(rules, tree, path, Found(found[i].what, 0));
    }
    if path, what :| OnPath(rules, tree, path, Found(what, 0)) && what.severity == BLOCKER {
      FoundOfPath(rules, tree, path, Found(what, 0));
      var i :| 0 <= i < |found| && found[i] == Found(what, 0);
      assert Unguarded(found[i]);
    }
  }
}
